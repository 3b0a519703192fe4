/**
 * The domain-registration commands (`Services/Commands/Domain/Registration.php`).
 * Each one validates its arguments, writes its keys into the client's shared
 * payload in place, and issues exactly one request with a fixed command name.
 * The payload is never cleared, so keys written by one command are sent again
 * by every later one.
 *
 * `Registration extends HttpClient` is modelled by composition: a
 * `Registration` holds the client it acts on and its methods modify that client.
 */
module Registration {
  import opened Wrappers
  import opened PhpStrings
  import opened HttpClient

  /** A PHP argument that is either a scalar string or an array of strings. */
  datatype Arg = Scalar(text: string) | List(items: seq<string>)

  /**
   * What a command does to the payload: either it writes the given payload, or
   * its validation raises `InvalidArgumentException` with the given message
   * before anything is written or sent.
   */
  datatype Update = Write(payload: Payload) | Reject(message: string)

  /**
   * A command ran as `u` says: a rejection leaves the client as it was; a write
   * leaves the payload `u` gives and then sends `command` with that payload,
   * the command's outcome being the request's.
   */
  twostate predicate Issued(c: HttpClient, u: Update, command: string, net: Transport, new r: Outcome<()>)
    reads c
  {
    match u
    case Reject(msg) => r == InvalidArgument(msg) && unchanged(c)
    case Write(q) =>
      && c.payload == q
      && c.Credentials() == old(c.Credentials())
      && c.Sent(command, net)
      && r == Lift(Decide(c.xmlResponse), ())
  }

  // ---------------------------------------------------------------------
  // Domain splitting (`explode(".", $domain)`, pieces 0 and 1)
  // ---------------------------------------------------------------------

  /** `$pieces[i]`, or null when there is no such piece. */
  function Piece(pieces: seq<string>, i: nat): (v: Value)
  {
    if i < |pieces| then Str(pieces[i]) else Null
  }

  /** The payload after `sld` and `tld` are set from the first two pieces of `domain`. */
  function WithDomain(p: Payload, domain: string): (q: Payload)
    ensures q.Keys == p.Keys + {"sld", "tld"}
    ensures forall k :: k != "sld" && k != "tld" ==> Kept(p, q, k)
  {
    var pieces := Explode('.', domain);
    p["sld" := Str(pieces[0])]["tld" := Piece(pieces, 1)]
  }

  /**
   * `sld` is the text before the first dot and `tld` the text between the first
   * and the second; whatever follows the second dot is dropped.
   */
  lemma DomainSplit(p: Payload, sld: string, tld: string, rest: string)
    requires '.' !in sld && '.' !in tld
    requires rest == [] || rest[0] == '.'
    ensures WithDomain(p, sld + "." + tld + rest)["sld"] == Str(sld)
    ensures WithDomain(p, sld + "." + tld + rest)["tld"] == Str(tld)
  {
    assert sld + "." + tld + rest == sld + ['.'] + (tld + rest);
    ExplodeAfterPiece('.', sld, tld + rest);
    if rest == [] {
      assert tld + rest == tld;
      ExplodeWithoutSeparator('.', tld);
    } else {
      assert tld + rest == tld + ['.'] + rest[1..];
      ExplodeAfterPiece('.', tld, rest[1..]);
    }
  }

  /** A domain without a dot becomes the `sld`, and `tld` is set to null. */
  lemma DomainWithoutDot(p: Payload, domain: string)
    requires '.' !in domain
    ensures WithDomain(p, domain)["sld"] == Str(domain)
    ensures WithDomain(p, domain)["tld"] == Null
  {
    ExplodeWithoutSeparator('.', domain);
  }

  /** "a.co.uk" is checked as sld "a" with tld "co". */
  lemma SecondLevelSuffixDropped(p: Payload)
    ensures WithDomain(p, "a.co.uk")["sld"] == Str("a")
    ensures WithDomain(p, "a.co.uk")["tld"] == Str("co")
  {
    DomainSplit(p, "a", "co", ".uk");
    assert "a" + "." + "co" + ".uk" == "a.co.uk";
  }

  // ---------------------------------------------------------------------
  // Payload updates of the commands
  // ---------------------------------------------------------------------

  /** `check`: an array is refused; otherwise `sld` and `tld` are set from the domain. */
  function CheckUpdate(p: Payload, domain: Arg): (u: Update)
    ensures u.Reject? <==> domain.List?
    ensures u.Reject? ==> u.message == "Multiple domain name checks are not allowed"
    ensures u.Write? ==> u.payload == WithDomain(p, domain.text)
  {
    match domain
    case List(_) => Reject("Multiple domain name checks are not allowed")
    case Scalar(d) => Write(WithDomain(p, d))
  }

  /**
   * `batchCheck`: refused when both arguments are arrays; a list of domains sets
   * `DomainList`; otherwise a list of TLDs sets `SLD` and `TLDList`; with neither
   * the payload is left as it is (and the request is still sent).
   */
  function BatchCheckUpdate(p: Payload, slds: Arg, tlds: Option<seq<string>>): (u: Update)
    ensures u.Reject? <==> slds.List? && tlds.Some?
    ensures u.Reject? ==> u.message == "DomainList and Tld list is not allowed in the same request"
    ensures slds.List? && tlds.None? ==>
      && u.payload.Keys == p.Keys + {"DomainList"}
      && u.payload["DomainList"] == Str(Implode(',', slds.items))
      && forall k :: k != "DomainList" ==> Kept(p, u.payload, k)
    ensures slds.Scalar? && tlds.Some? ==>
      && u.payload.Keys == p.Keys + {"SLD", "TLDList"}
      && u.payload["SLD"] == Str(slds.text)
      && u.payload["TLDList"] == Str(Implode(',', tlds.value))
      && forall k :: k != "SLD" && k != "TLDList" ==> Kept(p, u.payload, k)
    ensures slds.Scalar? && tlds.None? ==> u == Write(p)
  {
    if slds.List? && tlds.Some? then
      Reject("DomainList and Tld list is not allowed in the same request")
    else if slds.List? then
      Write(p["DomainList" := Str(Implode(',', slds.items))])
    else if tlds.Some? then
      Write(p["SLD" := Str(slds.text)]["TLDList" := Str(Implode(',', tlds.value))])
    else
      Write(p)
  }

  /** The comma-joined `DomainList` holds the given domains, in order, when none contains a comma. */
  lemma BatchCheckListRecoverable(p: Payload, domains: seq<string>)
    requires |domains| >= 1
    requires forall i :: 0 <= i < |domains| ==> ',' !in domains[i]
    ensures Explode(',', BatchCheckUpdate(p, List(domains), None).payload["DomainList"].s) == domains
  {
    ExplodeImplode(',', domains);
  }

  /** PHP's `$flag ? 'True' : 'False'`. */
  function TrueFalse(b: bool): (s: string)
    ensures s == "True" <==> b
    ensures s == "False" <==> !b
  {
    if b then "True" else "False"
  }

  /** The list arguments of `getNameSuggestions` and the keys they go to. */
  const SuggestionListKeys: set<string> := {"TldList", "OnlyTldList", "ExcludeTldList"}

  /** The keys `getNameSuggestions` always writes. */
  const SuggestionKeys: set<string> := {"SearchTerm", "Adult", "Premium", "MaxResults", "SpinType"}

  /** A list written only when it is not empty. */
  function WithList(p: Payload, key: string, items: seq<string>): (q: Payload)
    ensures items != [] ==> q == p[key := Str(Implode(',', items))]
    ensures items == [] ==> q == p
    ensures forall k :: k != key ==> Kept(p, q, k)
  {
    if items != [] then p[key := Str(Implode(',', items))] else p
  }

  /**
   * `getNameSuggestions`: always writes the search term, the two flags as
   * "True"/"False", the maximum and the spin type; writes each TLD list only
   * when it is not empty, so an earlier value under that key survives otherwise.
   */
  function NameSuggestionsPayload(
    p: Payload, search: string, maxResults: int, spinType: int,
    includeTlds: seq<string>, onlyTlds: seq<string>, excludeTlds: seq<string>,
    adult: bool, premium: bool): (q: Payload)
    ensures SuggestionKeys <= q.Keys
    ensures q["SearchTerm"] == Str(search) && q["MaxResults"] == Int(maxResults) && q["SpinType"] == Int(spinType)
    ensures q["Adult"] == Str(TrueFalse(adult)) && q["Premium"] == Str(TrueFalse(premium))
    ensures includeTlds != [] ==> "TldList" in q && q["TldList"] == Str(Implode(',', includeTlds))
    ensures includeTlds == [] ==> Kept(p, q, "TldList")
    ensures onlyTlds != [] ==> "OnlyTldList" in q && q["OnlyTldList"] == Str(Implode(',', onlyTlds))
    ensures onlyTlds == [] ==> Kept(p, q, "OnlyTldList")
    ensures excludeTlds != [] ==> "ExcludeTldList" in q && q["ExcludeTldList"] == Str(Implode(',', excludeTlds))
    ensures excludeTlds == [] ==> Kept(p, q, "ExcludeTldList")
  {
    var q0 := p["SearchTerm" := Str(search)]
               ["Adult" := Str(TrueFalse(adult))]
               ["Premium" := Str(TrueFalse(premium))]
               ["MaxResults" := Int(maxResults)]
               ["SpinType" := Int(spinType)];
    var q1 := WithList(q0, "TldList", includeTlds);
    var q2 := WithList(q1, "OnlyTldList", onlyTlds);
    var q3 := WithList(q2, "ExcludeTldList", excludeTlds);
    assert Kept(p, q1, "OnlyTldList") && Kept(p, q1, "ExcludeTldList") && Kept(p, q2, "ExcludeTldList");
    q3
  }

  /** `getNameSuggestions` writes no key besides its own eight. */
  lemma NameSuggestionsKeepsOtherKeys(
    p: Payload, search: string, maxResults: int, spinType: int,
    includeTlds: seq<string>, onlyTlds: seq<string>, excludeTlds: seq<string>,
    adult: bool, premium: bool, k: string)
    requires k !in SuggestionKeys && k !in SuggestionListKeys
    ensures Kept(p, NameSuggestionsPayload(p, search, maxResults, spinType, includeTlds, onlyTlds, excludeTlds, adult, premium), k)
  {
  }

  /** The characters `getExtAttributes` strips from the front of a TLD. */
  const ExtStrip: set<char> := {' ', '.'}

  /**
   * `getExtAttributes`: leading spaces and dots are stripped; a TLD that is then
   * PHP-empty ("" or "0") is refused, any other sets `tld`.
   */
  function ExtAttributesUpdate(p: Payload, tld: string): (u: Update)
    ensures u.Reject? <==> PhpEmpty(LTrim(tld, ExtStrip))
    ensures u.Reject? ==> u.message == "TLD cannot be empty"
    ensures u.Write? ==> u.payload.Keys == p.Keys + {"tld"} && forall k :: k != "tld" ==> Kept(p, u.payload, k)
    ensures u.Write? ==> u.payload["tld"] == Str(LTrim(tld, ExtStrip))
  {
    var t := LTrim(tld, ExtStrip);
    if PhpEmpty(t) then Reject("TLD cannot be empty") else Write(p["tld" := Str(t)])
  }

  /** ".co.uk" and " .de" are looked up as "co.uk" and "de": only the leading run is stripped. */
  lemma ExtAttributesStripsLeadingDots(p: Payload, lead: string, tld: string)
    requires forall i :: 0 <= i < |lead| ==> lead[i] in ExtStrip
    requires tld != [] && tld[0] !in ExtStrip && tld != "0"
    ensures ExtAttributesUpdate(p, lead + tld) == Write(p["tld" := Str(tld)])
  {
    LTrimSplit(lead, tld, ExtStrip);
  }

  /** Only dots and spaces: refused. */
  lemma ExtAttributesRejectsOnlyDots(p: Payload, lead: string)
    requires forall i :: 0 <= i < |lead| ==> lead[i] in ExtStrip
    ensures ExtAttributesUpdate(p, lead).Reject?
  {
    assert lead + [] == lead;
    LTrimSplit(lead, [], ExtStrip);
  }

  // ---------------------------------------------------------------------
  // purchase
  // ---------------------------------------------------------------------

  /** The key `"ns" . ($i + 1)` of the nameserver at index `i`. */
  function NsKey(i: nat): (k: string)
  {
    "ns" + DecimalString(i + 1)
  }

  /** The keys of the first `n` nameservers. */
  function NsKeys(n: nat): (ks: set<string>)
  {
    set i | 0 <= i < n :: NsKey(i)
  }

  /** Nameservers at different positions get different keys. */
  lemma NsKeyInjective(i: nat, j: nat)
    requires i != j
    ensures NsKey(i) != NsKey(j)
  {
    DecimalInjective(i + 1, j + 1);
    assert NsKey(i)[2..] == DecimalString(i + 1);
    assert NsKey(j)[2..] == DecimalString(j + 1);
  }

  /** No nameserver key is one of the fixed keys `purchase` writes. */
  lemma NsKeyNotFixed(i: nat)
    ensures NsKey(i) !in PurchaseFixedKeys + {"usedns", "domainpassword"}
  {
    var k := NsKey(i);
    assert k[0] == 'n' && k[1] == 's' && |k| >= 3;
  }

  /** The payload after the `foreach` over the nameservers, in list order. */
  function WithNameServers(p: Payload, servers: seq<string>): (q: Payload)
    decreases |servers|
  {
    if servers == [] then p
    else
      var n := |servers| - 1;
      WithNameServers(p, servers[..n])[NsKey(n) := Str(servers[n])]
  }

  /** The loop sets `ns1..nsN` to the nameservers in order and touches no other key. */
  lemma {:induction false} NameServersWritten(p: Payload, servers: seq<string>)
    ensures WithNameServers(p, servers).Keys == p.Keys + NsKeys(|servers|)
    ensures forall i :: 0 <= i < |servers| ==> WithNameServers(p, servers)[NsKey(i)] == Str(servers[i])
    ensures forall k :: k !in NsKeys(|servers|) ==> Kept(p, WithNameServers(p, servers), k)
  {
    if servers != [] {
      var n := |servers| - 1;
      var prev := servers[..n];
      NameServersWritten(p, prev);
      assert NsKeys(n + 1) == NsKeys(n) + {NsKey(n)};
      forall i | 0 <= i < n
        ensures WithNameServers(p, servers)[NsKey(i)] == Str(servers[i])
      {
        NsKeyInjective(i, n);
        assert prev[i] == servers[i];
      }
    }
  }

  /** The keys `purchase` writes whatever its arguments. */
  const PurchaseFixedKeys: set<string> := {"sld", "tld", "unlockregistrar", "renewname", "numyears"}

  /** PHP's `(int) $flag` on a boolean. */
  function Bit(b: bool): (n: int)
    ensures n == 0 || n == 1
    ensures n == 1 <==> b
  {
    if b then 1 else 0
  }

  /** `!empty($password)` for an optional string. */
  predicate HasPassword(password: Option<string>)
  {
    password.Some? && !PhpEmpty(password.value)
  }

  /** A non-empty list of nameservers is given. */
  predicate HasNameServers(nameservers: Option<seq<string>>)
  {
    nameservers.Some? && |nameservers.value| > 0
  }

  /** The keys one `purchase` call writes. */
  function PurchaseKeys(nameservers: Option<seq<string>>, password: Option<string>): (ks: set<string>)
  {
    PurchaseFixedKeys
      + (if HasNameServers(nameservers) then NsKeys(|nameservers.value|) else {"usedns"})
      + (if HasPassword(password) then {"domainpassword"} else {})
  }

  /** The payload `purchase` writes for a domain that is not empty after trimming. */
  function PurchasePayload(
    p: Payload, domain: string, numyears: int, autorenew: bool,
    nameservers: Option<seq<string>>, unlock: bool, password: Option<string>): (q: Payload)
  {
    var withDomain := WithDomain(p, domain);
    var withDns :=
      if HasNameServers(nameservers) then WithNameServers(withDomain, nameservers.value)
      else withDomain["usedns" := Str("default")];
    var withFlags := withDns["unlockregistrar" := Int(Bit(unlock))]["renewname" := Int(Bit(autorenew))];
    var withPassword :=
      if HasPassword(password) then withFlags["domainpassword" := Str(password.value)] else withFlags;
    withPassword["numyears" := Int(numyears)]
  }

  /** `purchase`: a domain that is PHP-empty after `trim` is refused; otherwise the payload above. */
  function PurchaseUpdate(
    p: Payload, domain: string, numyears: int, autorenew: bool,
    nameservers: Option<seq<string>>, unlock: bool, password: Option<string>): (u: Update)
    ensures u.Reject? <==> PhpEmpty(Trim(domain))
    ensures u.Reject? ==> u.message == "Domain cannot be empty"
    ensures u.Write? ==> u.payload == PurchasePayload(p, Trim(domain), numyears, autorenew, nameservers, unlock, password)
  {
    var d := Trim(domain);
    if PhpEmpty(d) then Reject("Domain cannot be empty")
    else Write(PurchasePayload(p, d, numyears, autorenew, nameservers, unlock, password))
  }

  /** Whitespace around the domain is ignored: it is registered as the trimmed name. */
  lemma PurchaseTrimsDomain(
    p: Payload, lead: string, domain: string, trail: string, numyears: int, autorenew: bool,
    nameservers: Option<seq<string>>, unlock: bool, password: Option<string>)
    requires forall i :: 0 <= i < |lead| ==> lead[i] in TrimDefault
    requires forall i :: 0 <= i < |trail| ==> trail[i] in TrimDefault
    requires domain != [] && domain[0] !in TrimDefault && domain[|domain| - 1] !in TrimDefault
    requires domain != "0"
    ensures PurchaseUpdate(p, lead + domain + trail, numyears, autorenew, nameservers, unlock, password)
      == Write(PurchasePayload(p, domain, numyears, autorenew, nameservers, unlock, password))
  {
    TrimSplit(lead, domain, trail);
  }

  /** A domain made only of whitespace is refused. */
  lemma PurchaseRejectsBlankDomain(
    p: Payload, blank: string, numyears: int, autorenew: bool,
    nameservers: Option<seq<string>>, unlock: bool, password: Option<string>)
    requires forall i :: 0 <= i < |blank| ==> blank[i] in TrimDefault
    ensures PurchaseUpdate(p, blank, numyears, autorenew, nameservers, unlock, password)
      == Reject("Domain cannot be empty")
  {
    TrimSplit(blank, [], []);
    assert blank + [] + [] == blank;
  }

  /** `purchase` writes exactly the keys `PurchaseKeys` names and keeps every other entry. */
  lemma PurchaseWritesOnly(
    p: Payload, domain: string, numyears: int, autorenew: bool,
    nameservers: Option<seq<string>>, unlock: bool, password: Option<string>)
    ensures var q := PurchasePayload(p, domain, numyears, autorenew, nameservers, unlock, password);
      && q.Keys == p.Keys + PurchaseKeys(nameservers, password)
      && forall k :: k !in PurchaseKeys(nameservers, password) ==> Kept(p, q, k)
  {
    var withDomain := WithDomain(p, domain);
    if HasNameServers(nameservers) {
      NameServersWritten(withDomain, nameservers.value);
    }
  }

  /**
   * The values `purchase` writes: the flags as 0/1, the years as given, the
   * password only when it is not empty, and either `ns1..nsN` in list order
   * or `usedns` = "default".
   */
  lemma PurchaseSetsValues(
    p: Payload, domain: string, numyears: int, autorenew: bool,
    nameservers: Option<seq<string>>, unlock: bool, password: Option<string>)
    ensures var q := PurchasePayload(p, domain, numyears, autorenew, nameservers, unlock, password);
      && PurchaseFixedKeys <= q.Keys
      && q["unlockregistrar"] == Int(Bit(unlock))
      && q["renewname"] == Int(Bit(autorenew))
      && q["numyears"] == Int(numyears)
      && q["sld"] == WithDomain(p, domain)["sld"]
      && q["tld"] == WithDomain(p, domain)["tld"]
      && (HasPassword(password) ==> "domainpassword" in q && q["domainpassword"] == Str(password.value))
      && (!HasPassword(password) ==> Kept(p, q, "domainpassword"))
      && (HasNameServers(nameservers) ==>
            forall i :: 0 <= i < |nameservers.value| ==> NsKey(i) in q && q[NsKey(i)] == Str(nameservers.value[i]))
      && (!HasNameServers(nameservers) ==> "usedns" in q && q["usedns"] == Str("default"))
  {
    var withDomain := WithDomain(p, domain);
    if HasNameServers(nameservers) {
      var servers := nameservers.value;
      NameServersWritten(withDomain, servers);
      forall i | 0 <= i < |servers|
        ensures NsKey(i) !in PurchaseFixedKeys + {"usedns", "domainpassword"}
      {
        NsKeyNotFixed(i);
      }
      assert "sld" !in NsKeys(|servers|) && "tld" !in NsKeys(|servers|);
      assert "domainpassword" !in NsKeys(|servers|);
    }
  }

  // ---------------------------------------------------------------------
  // The commands
  // ---------------------------------------------------------------------

  class Registration {
    const client: HttpClient

    /** A registration client over a new `HttpClient` with the given credentials. */
    constructor (url: string, username: string, password: string)
      ensures fresh(client)
      ensures client.State() == Fields(url, username, password, map[], None, None, None, None)
    {
      client := new HttpClient(url, username, password);
    }

    /** `check($domain)`: the availability of one domain. */
    method Check(net: Transport, domain: Arg) returns (r: Outcome<()>)
      modifies client
      ensures Issued(client, CheckUpdate(old(client.payload), domain), "Check", net, r)
    {
      if domain.List? {
        return InvalidArgument("Multiple domain name checks are not allowed");
      }
      var pieces := Explode('.', domain.text);
      client.payload := client.payload["sld" := Str(pieces[0])];
      client.payload := client.payload["tld" := Piece(pieces, 1)];
      var c := client.MakeRequest("Check", client.payload, net);
      r := Lift(c, ());
    }

    /**
     * `batchCheck($slds, $tlds = false)`: a list of domains, or one SLD with a
     * list of TLDs; PHP's `false` for no TLD list is `None`.
     */
    method BatchCheck(net: Transport, slds: Arg, tlds: Option<seq<string>> := None) returns (r: Outcome<()>)
      modifies client
      ensures Issued(client, BatchCheckUpdate(old(client.payload), slds, tlds), "Check", net, r)
    {
      if slds.List? && tlds.Some? {
        return InvalidArgument("DomainList and Tld list is not allowed in the same request");
      }
      if slds.List? {
        client.payload := client.payload["DomainList" := Str(Implode(',', slds.items))];
      } else if tlds.Some? {
        client.payload := client.payload["SLD" := Str(slds.text)];
        client.payload := client.payload["TLDList" := Str(Implode(',', tlds.value))];
      }
      var c := client.MakeRequest("Check", client.payload, net);
      r := Lift(c, ());
    }

    /**
     * `getNameSuggestions($search, $maxResults = 50, $spinType = 0,
     * $includeTlds = [], $onlyTlds = [], $excludeTlds = [], $adult = false,
     * $premium = true)`: suggestions for a search term.
     */
    method GetNameSuggestions(
      net: Transport, search: string, maxResults: int := 50, spinType: int := 0,
      includeTlds: seq<string> := [], onlyTlds: seq<string> := [], excludeTlds: seq<string> := [],
      adult: bool := false, premium: bool := true) returns (r: Outcome<()>)
      modifies client
      ensures Issued(client, Write(NameSuggestionsPayload(old(client.payload), search, maxResults, spinType,
        includeTlds, onlyTlds, excludeTlds, adult, premium)), "GetNameSuggestions", net, r)
    {
      client.payload := client.payload["SearchTerm" := Str(search)];
      client.payload := client.payload["Adult" := Str(TrueFalse(adult))];
      client.payload := client.payload["Premium" := Str(TrueFalse(premium))];
      client.payload := client.payload["MaxResults" := Int(maxResults)];
      client.payload := client.payload["SpinType" := Int(spinType)];
      if includeTlds != [] {
        client.payload := client.payload["TldList" := Str(Implode(',', includeTlds))];
      }
      if onlyTlds != [] {
        client.payload := client.payload["OnlyTldList" := Str(Implode(',', onlyTlds))];
      }
      if excludeTlds != [] {
        client.payload := client.payload["ExcludeTldList" := Str(Implode(',', excludeTlds))];
      }
      var c := client.MakeRequest("GetNameSuggestions", client.payload, net);
      r := Lift(c, ());
    }

    /**
     * `getConfirmationSettings()`: sends the payload as it stands. The PHP method
     * returns `$data->ConfirmationSettings` of the null that `makeRequest`
     * returns, i.e. null.
     */
    method GetConfirmationSettings(net: Transport) returns (r: Outcome<()>)
      modifies client
      ensures Issued(client, Write(old(client.payload)), "GetConfirmationSettings", net, r)
    {
      var c := client.MakeRequest("GetConfirmationSettings", client.payload, net);
      r := Lift(c, ());
    }

    /** `getExtAttributes($tld)`: the extended attributes of a country-code TLD. */
    method GetExtAttributes(net: Transport, tld: string) returns (r: Outcome<()>)
      modifies client
      ensures Issued(client, ExtAttributesUpdate(old(client.payload), tld), "GetExtAttributes", net, r)
    {
      var t := LTrim(tld, ExtStrip);
      if PhpEmpty(t) {
        return InvalidArgument("TLD cannot be empty");
      }
      client.payload := client.payload["tld" := Str(t)];
      var c := client.MakeRequest("GetExtAttributes", client.payload, net);
      r := Lift(c, ());
    }

    /**
     * `purchase($domain, $numyears = 1, $autorenew = false, $nameservers = null,
     * $unlock = false, $password = null)`: registers a domain in real time.
     */
    method Purchase(
      net: Transport, domain: string, numyears: int := 1, autorenew: bool := false,
      nameservers: Option<seq<string>> := None, unlock: bool := false, password: Option<string> := None) returns (r: Outcome<()>)
      modifies client
      ensures Issued(client, PurchaseUpdate(old(client.payload), domain, numyears, autorenew,
        nameservers, unlock, password), "Purchase", net, r)
    {
      var d := Trim(domain);
      if PhpEmpty(d) {
        return InvalidArgument("Domain cannot be empty");
      }
      ghost var expected := PurchasePayload(old(client.payload), d, numyears, autorenew, nameservers, unlock, password);
      assert PurchaseUpdate(old(client.payload), domain, numyears, autorenew, nameservers, unlock, password)
        == Write(expected);

      var pieces := Explode('.', d);
      client.payload := client.payload["sld" := Str(pieces[0])];
      client.payload := client.payload["tld" := Piece(pieces, 1)];
      assert client.payload == WithDomain(old(client.payload), d);

      if nameservers.Some? && |nameservers.value| > 0 {
        SetNameServers(nameservers.value);
      } else {
        client.payload := client.payload["usedns" := Str("default")];
      }

      client.payload := client.payload["unlockregistrar" := Int(Bit(unlock))];
      client.payload := client.payload["renewname" := Int(Bit(autorenew))];
      if HasPassword(password) {
        client.payload := client.payload["domainpassword" := Str(password.value)];
      }
      client.payload := client.payload["numyears" := Int(numyears)];
      assert client.payload == expected;

      var c := client.MakeRequest("Purchase", client.payload, net);
      r := Lift(c, ());
    }

    /** The `foreach` of `purchase`: sets `ns1..nsN` to the nameservers in list order. */
    method SetNameServers(servers: seq<string>)
      modifies client
      ensures client.payload == WithNameServers(old(client.payload), servers)
      ensures client.State() == old(client.State()).(payload := client.payload)
    {
      ghost var start := client.payload;
      var i := 0;
      while i < |servers|
        invariant 0 <= i <= |servers|
        invariant client.payload == WithNameServers(start, servers[..i])
        invariant client.State() == old(client.State()).(payload := client.payload)
      {
        client.payload := client.payload[NsKey(i) := Str(servers[i])];
        i := i + 1;
        assert servers[..i][..i - 1] == servers[..i - 1];
      }
      assert servers[..|servers|] == servers;
    }

    /** `getIDNCodes($tld)`: overwrites `tld` only; an earlier `sld` is sent again. */
    method GetIDNCodes(net: Transport, tld: string) returns (r: Outcome<()>)
      modifies client
      ensures Issued(client, Write(old(client.payload)["tld" := Str(tld)]), "GetIDNCodes", net, r)
    {
      client.payload := client.payload["tld" := Str(tld)];
      var c := client.MakeRequest("GetIDNCodes", client.payload, net);
      r := Lift(c, ());
    }
  }

  // ---------------------------------------------------------------------
  // Keys leak from one command into the next
  // ---------------------------------------------------------------------

  /** After `check`, `getIDNCodes` sends the old `sld` with its own `tld`. */
  lemma IdnCodesResendsSld(p: Payload, domain: string, tld: string, command: string, uid: string, pw: string)
    ensures var sent := Inject(WithDomain(p, domain)["tld" := Str(tld)], command, uid, pw);
      sent["sld"] == Str(Explode('.', domain)[0]) && sent["tld"] == Str(tld)
  {
  }

  /**
   * A purchase with nameservers after one without still sends
   * `usedns` = "default", and a purchase with fewer nameservers than an earlier
   * one still sends the earlier extra `ns` keys.
   */
  lemma PurchaseKeepsEarlierDnsKeys(
    p: Payload, domain: string, numyears: int, autorenew: bool,
    nameservers: Option<seq<string>>, unlock: bool, password: Option<string>, k: string, j: nat)
    requires k in p
    requires k == "usedns" || (nameservers.Some? && j >= |nameservers.value| && k == NsKey(j))
    ensures var q := PurchasePayload(p, domain, numyears, autorenew, nameservers, unlock, password);
      HasNameServers(nameservers) ==> k in q && q[k] == p[k]
  {
    PurchaseWritesOnly(p, domain, numyears, autorenew, nameservers, unlock, password);
    if HasNameServers(nameservers) {
      var n := |nameservers.value|;
      if k == "usedns" {
        forall i | 0 <= i < n ensures NsKey(i) != "usedns" { NsKeyNotFixed(i); }
        assert k !in NsKeys(n);
      } else {
        forall i | 0 <= i < n ensures NsKey(i) != k { NsKeyInjective(i, j); }
        assert k !in NsKeys(n);
        NsKeyNotFixed(j);
      }
      assert k !in PurchaseKeys(nameservers, password);
    }
  }

  /**
   * The same leak through the commands themselves: after checking
   * `sld.tld`, `getIDNCodes(idnTld)` sends that `sld` again beside its own
   * `tld`, whatever the first request answered. Returns the parameters of the
   * second request.
   */
  method CheckThenIdnCodes(url: string, username: string, password: string,
                           sld: string, tld: string, idnTld: string, net: Transport)
    returns (sent: Payload)
    requires '.' !in sld && '.' !in tld
    ensures "command" in sent && sent["command"] == Str("GetIDNCodes")
    ensures "sld" in sent && sent["sld"] == Str(sld)
    ensures "tld" in sent && sent["tld"] == Str(idnTld)
  {
    var domain := sld + "." + tld;
    var reg := new Registration(url, username, password);
    var first := reg.Check(net, Scalar(domain));
    assert reg.client.payload == WithDomain(map[], domain);
    var second := reg.GetIDNCodes(net, idnTld);
    assert reg.client.payload == WithDomain(map[], domain)["tld" := Str(idnTld)];
    sent := Inject(reg.client.payload, "GetIDNCodes", reg.client.username, reg.client.password);
    IdnCodesResendsSld(map[], domain, idnTld, "GetIDNCodes", reg.client.username, reg.client.password);
    DomainSplit(map[], sld, tld, "");
    assert sld + "." + tld + "" == domain;
  }

  // ---------------------------------------------------------------------
  // The commands called with their default arguments
  // ---------------------------------------------------------------------

  /**
   * `batchCheck($slds)` without a TLD list, on new clients: a list of domains
   * sends only `DomainList`; a single SLD writes nothing. Returns the
   * parameters each request sends.
   */
  method BatchCheckByDefault(url: string, username: string, password: string,
                             domains: seq<string>, sld: string, net: Transport)
    returns (listSent: Payload, sldSent: Payload)
    ensures listSent.Keys == {"DomainList"} + Reserved
    ensures listSent["DomainList"] == Str(Implode(',', domains)) && listSent["command"] == Str("Check")
    ensures sldSent.Keys == Reserved && sldSent["command"] == Str("Check")
  {
    var first := new Registration(url, username, password);
    var r := first.BatchCheck(net, List(domains));
    assert first.client.payload == map["DomainList" := Str(Implode(',', domains))];
    listSent := Inject(first.client.payload, "Check", first.client.username, first.client.password);

    var second := new Registration(url, username, password);
    r := second.BatchCheck(net, Scalar(sld));
    assert second.client.payload == map[];
    sldSent := Inject(second.client.payload, "Check", second.client.username, second.client.password);
  }

  /**
   * `getNameSuggestions($search)` on a new client: at most 50 results, spin
   * type 0, no TLD lists, adult names excluded and premium names included.
   * Returns the parameters the request sends.
   */
  method NameSuggestionsByDefault(url: string, username: string, password: string,
                                  search: string, net: Transport)
    returns (sent: Payload)
    ensures sent.Keys == SuggestionKeys + Reserved
    ensures sent["SearchTerm"] == Str(search) && sent["MaxResults"] == Int(50) && sent["SpinType"] == Int(0)
    ensures sent["Adult"] == Str("False") && sent["Premium"] == Str("True")
  {
    var reg := new Registration(url, username, password);
    var r := reg.GetNameSuggestions(net, search);
    var q := reg.client.payload;
    assert q == NameSuggestionsPayload(map[], search, 50, 0, [], [], [], false, true);
    assert q.Keys == SuggestionKeys;
    sent := Inject(q, "GetNameSuggestions", reg.client.username, reg.client.password);
  }

  /** A plain "sld.tld" domain is its own trimmed text and is not empty. */
  lemma PlainDomainTrimmed(sld: string, tld: string)
    requires sld != [] && sld[0] !in TrimDefault
    requires tld != [] && tld[|tld| - 1] !in TrimDefault
    ensures Trim(sld + "." + tld) == sld + "." + tld
    ensures !PhpEmpty(sld + "." + tld)
  {
    var domain := sld + "." + tld;
    assert domain[0] == sld[0] && domain[|domain| - 1] == tld[|tld| - 1];
    assert "" + domain + "" == domain;
    TrimSplit("", domain, "");
    assert |domain| >= 3;
  }

  /**
   * The payload of `purchase($domain)` with every other argument defaulted,
   * for a fresh payload and a plain "sld.tld" domain.
   */
  lemma PurchaseDefaultPayload(sld: string, tld: string)
    requires '.' !in sld && '.' !in tld
    requires sld != [] && sld[0] !in TrimDefault
    requires tld != [] && tld[|tld| - 1] !in TrimDefault
    ensures PurchaseUpdate(map[], sld + "." + tld, 1, false, None, false, None)
      == Write(map["sld" := Str(sld), "tld" := Str(tld), "usedns" := Str("default"),
                   "unlockregistrar" := Int(0), "renewname" := Int(0), "numyears" := Int(1)])
  {
    var domain := sld + "." + tld;
    PlainDomainTrimmed(sld, tld);
    DomainSplit(map[], sld, tld, "");
    assert sld + "." + tld + "" == domain;
    var d := WithDomain(map[], domain);
    assert d == map["sld" := Str(sld), "tld" := Str(tld)];
  }

  /** The parameters sent for the default purchase payload. */
  lemma DefaultPurchaseSent(sld: string, tld: string, uid: string, pw: string)
    ensures var sent := Inject(map["sld" := Str(sld), "tld" := Str(tld), "usedns" := Str("default"),
                                   "unlockregistrar" := Int(0), "renewname" := Int(0), "numyears" := Int(1)],
                               "Purchase", uid, pw);
      && sent.Keys == PurchaseFixedKeys + {"usedns"} + Reserved
      && sent["sld"] == Str(sld) && sent["tld"] == Str(tld)
      && sent["numyears"] == Int(1) && sent["renewname"] == Int(0) && sent["unlockregistrar"] == Int(0)
      && sent["usedns"] == Str("default") && sent["command"] == Str("Purchase")
  {
  }

  /**
   * `purchase($domain)` on a new client: one year, no auto-renewal, the
   * default DNS, registrar lock kept, no password. Returns the parameters the
   * request sends.
   */
  method PurchaseByDefault(url: string, username: string, password: string,
                           sld: string, tld: string, net: Transport)
    returns (sent: Payload)
    requires '.' !in sld && '.' !in tld
    requires sld != [] && sld[0] !in TrimDefault
    requires tld != [] && tld[|tld| - 1] !in TrimDefault
    ensures sent.Keys == PurchaseFixedKeys + {"usedns"} + Reserved
    ensures sent["sld"] == Str(sld) && sent["tld"] == Str(tld)
    ensures sent["numyears"] == Int(1) && sent["renewname"] == Int(0) && sent["unlockregistrar"] == Int(0)
    ensures sent["usedns"] == Str("default") && sent["command"] == Str("Purchase")
  {
    var domain := sld + "." + tld;
    ghost var q := map["sld" := Str(sld), "tld" := Str(tld), "usedns" := Str("default"),
                       "unlockregistrar" := Int(0), "renewname" := Int(0), "numyears" := Int(1)];
    PurchaseDefaultPayload(sld, tld);
    assert PurchaseUpdate(map[], domain, 1, false, None, false, None) == Write(q);
    var reg := new Registration(url, username, password);
    var r := reg.Purchase(net, domain);
    assert reg.client.payload == q;
    sent := Inject(reg.client.payload, "Purchase", reg.client.username, reg.client.password);
    DefaultPurchaseSent(sld, tld, reg.client.username, reg.client.password);
  }
}
