/** The prayer request record read by the prayer wall and the request page. */
module PrayerModel {

  /** A prayer_requests row; times are integer milliseconds. */
  datatype PrayerRequest = PrayerRequest(
    id: string,
    userId: string,
    userName: string,
    title: string,
    content: string,
    category: string,
    amenCount: int,
    responseCount: int,
    isAnswered: bool,
    createdAt: int,
    updatedAt: int)
}
