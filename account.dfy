/**
 * The account commands (`Services/Commands/Account.php`). Each one issues
 * exactly one request with a fixed command name and the payload as it stands
 * (only `getOrderList` writes keys first), and returns the client object
 * itself rather than the parsed document.
 *
 * `Account extends HttpClient` is modelled by composition, as for registration.
 */
module Account {
  import opened Wrappers
  import opened HttpClient

  /** The keys `getOrderList` may write. */
  const OrderListKeys: set<string> := {"start", "begindate", "enddate"}

  /**
   * `getOrderList($start, $begin, $end)`: `start` is always written; `begindate`
   * and `enddate` only when the argument is set (not null), so a date stored by
   * an earlier call survives otherwise.
   */
  function OrderListPayload(p: Payload, start: Value, begin: Value, end: Value): (q: Payload)
    ensures "start" in q && q["start"] == start
    ensures begin != Null ==> "begindate" in q && q["begindate"] == begin
    ensures begin == Null ==> Kept(p, q, "begindate")
    ensures end != Null ==> "enddate" in q && q["enddate"] == end
    ensures end == Null ==> Kept(p, q, "enddate")
    ensures forall k :: k !in OrderListKeys ==> Kept(p, q, k)
  {
    var withStart := p["start" := start];
    var withBegin := if begin != Null then withStart["begindate" := begin] else withStart;
    if end != Null then withBegin["enddate" := end] else withBegin
  }

  /** Dates given to one `getOrderList` call are sent again by a later call that gives none. */
  lemma OrderListDatesPersist(p: Payload, start1: Value, start2: Value, begin: Value, end: Value)
    requires begin != Null && end != Null
    ensures var q := OrderListPayload(OrderListPayload(p, start1, begin, end), start2, Null, Null);
      && "begindate" in q && q["begindate"] == begin
      && "enddate" in q && q["enddate"] == end
      && q["start"] == start2
  {
  }

  class Account {
    const client: HttpClient

    /** An account client over a new `HttpClient` with the given credentials. */
    constructor (url: string, username: string, password: string)
      ensures fresh(client)
      ensures client.State() == Fields(url, username, password, map[], None, None, None, None)
    {
      client := new HttpClient(url, username, password);
    }

    /**
     * The request `command` was sent with the payload `q`, which the client now
     * holds, and the outcome returns this object unless the request failed.
     */
    twostate predicate Issued(q: Payload, command: string, net: Transport, new r: Outcome<Account>)
      reads this, client
    {
      && client.payload == q
      && client.Credentials() == old(client.Credentials())
      && client.Sent(command, net)
      && r == Lift(Decide(client.xmlResponse), this)
    }

    /** `getAccountInfo()`. */
    method GetAccountInfo(net: Transport) returns (r: Outcome<Account>)
      modifies client
      ensures Issued(old(client.payload), "GetAccountInfo", net, r)
    {
      var c := client.MakeRequest("GetAccountInfo", client.payload, net);
      r := Lift(c, this);
    }

    /** `getServiceContact()`. */
    method GetServiceContact(net: Transport) returns (r: Outcome<Account>)
      modifies client
      ensures Issued(old(client.payload), "GetServiceContact", net, r)
    {
      var c := client.MakeRequest("GetServiceContact", client.payload, net);
      r := Lift(c, this);
    }

    /** `getOrderList($start = 1, $begin = null, $end = null)`. */
    method GetOrderList(net: Transport, start: Value := Int(1), begin: Value := Null, end: Value := Null) returns (r: Outcome<Account>)
      modifies client
      ensures Issued(OrderListPayload(old(client.payload), start, begin, end), "GetOrderList", net, r)
    {
      client.payload := client.payload["start" := start];
      if begin != Null {
        client.payload := client.payload["begindate" := begin];
      }
      if end != Null {
        client.payload := client.payload["enddate" := end];
      }
      var c := client.MakeRequest("GetOrderList", client.payload, net);
      r := Lift(c, this);
    }

    /** `getBalance()`. */
    method GetBalance(net: Transport) returns (r: Outcome<Account>)
      modifies client
      ensures Issued(old(client.payload), "GetBalance", net, r)
    {
      var c := client.MakeRequest("GetBalance", client.payload, net);
      r := Lift(c, this);
    }

    /** `getConfirmationSettings()`. */
    method GetConfirmationSettings(net: Transport) returns (r: Outcome<Account>)
      modifies client
      ensures Issued(old(client.payload), "GetConfirmationSettings", net, r)
    {
      var c := client.MakeRequest("GetConfirmationSettings", client.payload, net);
      r := Lift(c, this);
    }

    /** `getAllDomains()`. */
    method GetAllDomains(net: Transport) returns (r: Outcome<Account>)
      modifies client
      ensures Issued(old(client.payload), "GetAllDomains", net, r)
    {
      var c := client.MakeRequest("GetAllDomains", client.payload, net);
      r := Lift(c, this);
    }
  }

  /**
   * `getOrderList()` with every argument defaulted, on a new client: the
   * request sends `start` = 1 and no dates. Returns the parameters it sends.
   */
  method OrderListByDefault(url: string, username: string, password: string, net: Transport)
    returns (sent: Payload)
    ensures sent.Keys == {"start"} + Reserved
    ensures sent["start"] == Int(1) && sent["command"] == Str("GetOrderList")
    ensures sent["uid"] == Str(username) && sent["pw"] == Str(password)
  {
    var account := new Account(url, username, password);
    var r := account.GetOrderList(net);
    assert account.client.payload == map["start" := Int(1)];
    sent := Inject(account.client.payload, "GetOrderList", account.client.username, account.client.password);
  }
}
