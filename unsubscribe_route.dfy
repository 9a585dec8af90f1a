/** `POST /api/unsubscribe` (src/app/api/unsubscribe/route.ts): the
    token lookup and the soft delete that sets `active` to false. */
module UnsubscribeRoute {
  import opened Subscribers

  const MissingToken: string := "Missing unsubscribe token"
  const InvalidToken: string := "Invalid unsubscribe token"
  const AlreadyUnsubscribed: string := "Already unsubscribed"
  const SuccessfullyUnsubscribed: string := "Successfully unsubscribed"

  /** The route's answer: an error with its status code, or success with
      its message. */
  datatype UnsubscribeResponse = Failure(code: nat, error: string) | Success(message: string)

  /** The store's `find` by token with `limit: 1`: the position of the first
      record carrying `token`, or -1. */
  function FindByToken(records: seq<Subscriber>, token: string): (k: int)
    ensures -1 <= k < |records|
    ensures k >= 0 ==> (records[k].unsubscribeToken == token
                        && forall j :: 0 <= j < k ==> records[j].unsubscribeToken != token)
    ensures k == -1 <==> !TokenTaken(records, token)
    decreases |records|
  {
    if records == [] then -1
    else if records[0].unsubscribeToken == token then 0
    else
      var k := FindByToken(records[1..], token);
      assert forall j :: 1 <= j < |records| ==> records[j] == records[1..][j - 1];
      if k == -1 then -1 else k + 1
  }

  /** The route on a table `records`: its answer and the table afterwards.
      An empty token is missing. */
  function Unsubscribe(records: seq<Subscriber>, token: string): (r: (UnsubscribeResponse, seq<Subscriber>))
    ensures r.0.Failure? ==> r.1 == records
    ensures token == "" ==> r.0 == Failure(400, MissingToken)
    ensures token != "" && !TokenTaken(records, token) ==> r.0 == Failure(404, InvalidToken)
    ensures token != "" && TokenTaken(records, token) ==>
      var k := FindByToken(records, token);
      && r.0 == Success(if records[k].active then SuccessfullyUnsubscribed else AlreadyUnsubscribed)
      && r.1 == records[k := records[k].(active := false)]
  {
    if token == "" then (Failure(400, MissingToken), records)
    else
      var k := FindByToken(records, token);
      if k == -1 then (Failure(404, InvalidToken), records)
      else if !records[k].active then (Success(AlreadyUnsubscribed), records)
      else (Success(SuccessfullyUnsubscribed), records[k := records[k].(active := false)])
  }

  /** `POST` on the subscriber table. */
  method Post(table: SubscriberTable, token: string) returns (response: UnsubscribeResponse)
    requires table.Valid()
    modifies table
    ensures table.Valid() && table.nextId == old(table.nextId)
    ensures (response, table.records) == Unsubscribe(old(table.records), token)
  {
    if token == "" {
      return Failure(400, MissingToken);
    }
    var index := FindByToken(table.records, token);
    if index == -1 {
      return Failure(404, InvalidToken);
    }
    var subscriber := table.records[index];
    if !subscriber.active {
      return Success(AlreadyUnsubscribed);
    }
    table.SetActive(index, false);
    response := Success(SuccessfullyUnsubscribed);
  }

  /** Unsubscribing twice leaves the table as unsubscribing once, and the
      second request succeeds as well. */
  lemma UnsubscribeIsIdempotent(records: seq<Subscriber>, token: string)
    requires token != "" && TokenTaken(records, token)
    ensures var once := Unsubscribe(records, token);
      var twice := Unsubscribe(once.1, token);
      twice.1 == once.1 && once.0.Success? && twice.0 == Success(AlreadyUnsubscribed)
  {
    var k := FindByToken(records, token);
    var after := records[k := records[k].(active := false)];
    assert after[k].unsubscribeToken == token;
    assert FindByToken(after, token) == k by {
      assert forall j :: 0 <= j < k ==> after[j] == records[j];
      FirstMatchIsUnique(after, token, k);
    }
  }

  /** The first match is the only position satisfying the first-match
      condition. */
  lemma FirstMatchIsUnique(records: seq<Subscriber>, token: string, k: nat)
    requires k < |records| && records[k].unsubscribeToken == token
    requires forall j :: 0 <= j < k ==> records[j].unsubscribeToken != token
    ensures FindByToken(records, token) == k
  {
    var f := FindByToken(records, token);
    assert f >= 0 by {
      assert TokenTaken(records, token);
    }
  }

  /** Only the record carrying the token changes, and only its `active`
      flag; an unknown or missing token changes nothing. */
  lemma OnlyTheTokensRecordChanges(records: seq<Subscriber>, token: string, i: nat)
    requires i < |records| && records[i].unsubscribeToken != token
    ensures |Unsubscribe(records, token).1| == |records|
    ensures Unsubscribe(records, token).1[i] == records[i]
    ensures forall j :: 0 <= j < |records| ==> Unsubscribe(records, token).1[j].(active := records[j].active) == records[j]
  {
  }

  /** After a successful request no record with that token is active. */
  lemma UnsubscribedTokenIsInactive(records: seq<Subscriber>, token: string)
    requires TokensUnique(records)
    requires Unsubscribe(records, token).0.Success?
    ensures forall j :: 0 <= j < |records| && records[j].unsubscribeToken == token ==> !Unsubscribe(records, token).1[j].active
  {
    var k := FindByToken(records, token);
    forall j | 0 <= j < |records| && records[j].unsubscribeToken == token
      ensures !Unsubscribe(records, token).1[j].active
    {
      if j < k {
        assert false;
      } else if j > k {
        assert false;
      }
    }
  }
}
