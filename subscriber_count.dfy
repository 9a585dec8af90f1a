/** `GET /api/subscribers/count` (src/app/api/subscribers/count/route.ts):
    the number of active subscribers a channel would reach. */
module SubscriberCountRoute {
  import opened Wrappers
  import opened Subscribers
  import opened Notifications

  /** The channel a query value names, if any. */
  function ParseChannel(s: string): (r: Option<Channel>)
    ensures r == Some(Email) <==> s == "email"
    ensures r == Some(Sms) <==> s == "sms"
    ensures r == Some(Both) <==> s == "both"
  {
    if s == "email" then Some(Email) else if s == "sms" then Some(Sms) else if s == "both" then Some(Both) else None
  }

  /** The route's answer: `status` 200 with the count, or 500 with count 0
      and an error text when the store fails. `channelParam` is the query
      parameter, empty when it is missing. */
  method Get(channelParam: string, records: seq<Subscriber>, storeAvailable: bool)
    returns (status: nat, count: nat, error: string)
    ensures !storeAvailable ==> status == 500 && count == 0 && error == "Failed to count subscribers"
    ensures storeAvailable ==> status == 200 && error == ""
    ensures storeAvailable ==>
      var channel := if channelParam == "" then "both" else channelParam;
      count == match ParseChannel(channel) case Some(c) => |Recipients(records, c)| case None => 0
  {
    if !storeAvailable {
      return 500, 0, "Failed to count subscribers";
    }
    var channel := if channelParam == "" then "both" else channelParam;
    count := 0;
    if channel == "email" || channel == "both" {
      count := count + CountActive(records, EmailType);
    }
    if channel == "sms" || channel == "both" {
      count := count + CountActive(records, SmsType);
    }
    match ParseChannel(channel) {
      case Some(c) => EstimateCountsRecipients(c, records);
      case None =>
    }
    status, error := 200, "";
  }
}
