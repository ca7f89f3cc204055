/**
 * The endpoint of each builder, resolved against the client's base URL as
 * a send does (no query arguments), and the key each one reads from the
 * service's reply.
 */
module Endpoints {
  import opened Wrappers
  import AirshipClient
  import BatchPush
  import Push
  import ScheduledPush

  /**
   * Single and batch pushes go to the push endpoint and read `push_ids`;
   * scheduled pushes go to the schedules endpoint and read `schedule_urls`.
   */
  lemma EndpointUrls(urlencode: string -> string)
    ensures AirshipClient.UrlOf(Push.Url, None, urlencode) == "https://go.urbanairship.com/api/push/"
    ensures AirshipClient.UrlOf(BatchPush.Url, None, urlencode) == AirshipClient.UrlOf(Push.Url, None, urlencode)
    ensures AirshipClient.UrlOf(ScheduledPush.Url, None, urlencode) == "https://go.urbanairship.com/api/schedules/"
    ensures Push.MessagePayloadKey == BatchPush.MessagePayloadKey == "push_ids"
    ensures ScheduledPush.MessagePayloadKey == "schedule_urls"
  {
  }
}
