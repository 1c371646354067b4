/** `OnvifClient`: the singleton that holds the vendor credential table and guards device
    discovery with a running flag. The discovery job itself (a coroutine running the UDP search)
    is not modelled; its lifetime and its callbacks are events that drive the flags. */
module Client {
  import opened Base

  // ---------------------------------------------------------------------
  // The credential table

  /** A user name and password pair. */
  datatype Credential = Credential(userName: string, password: string)

  /** The `credentials` map: a `LinkedHashMap`, so its entries keep insertion order. */
  type Table = seq<(string, Credential)>

  /** `hikvision` first, then `dahua`. */
  const InitialTable: Table := [("hikvision", Credential("admin", "qwer123456")),
                                ("dahua", Credential("admin", "admin"))]

  /** `defaultCredentials`, used when no key matches. */
  const DefaultCredential := Credential("admin", "123456")

  function Keys(t: Table): (r: seq<string>)
    ensures |r| == |t| && forall i :: 0 <= i < |t| ==> r[i] == t[i].0
  {
    if |t| == 0 then [] else [t[0].0] + Keys(t[1..])
  }

  /** A map has each key once. */
  predicate DistinctKeys(t: Table) {
    forall i, j :: 0 <= i < j < |t| ==> t[i].0 != t[j].0
  }

  /** Every key is stored lower-cased. */
  predicate LowerKeys(t: Table) {
    forall i :: 0 <= i < |t| ==> Lower(t[i].0) == t[i].0
  }

  /** The map's `get`: the value stored under `key`. */
  function Get(t: Table, key: string): (r: Option<Credential>)
    ensures r.Some? <==> key in Keys(t)
  {
    if |t| == 0 then None
    else if t[0].0 == key then Some(t[0].1)
    else Get(t[1..], key)
  }

  /** The first entry from `i` on, in iteration order, whose key occurs in `m`. */
  function FirstMatch(t: Table, m: string, i: nat): (r: Option<nat>)
    requires i <= |t|
    ensures r.Some? ==> i <= r.value < |t| && Contains(m, t[r.value].0) &&
                        forall j :: i <= j < r.value ==> !Contains(m, t[j].0)
    ensures r.None? <==> forall j :: i <= j < |t| ==> !Contains(m, t[j].0)
    decreases |t| - i
  {
    if i == |t| then None
    else if Contains(m, t[i].0) then Some(i)
    else FirstMatch(t, m, i + 1)
  }

  /** What `getCredentials(manufacturer)` returns for the table `t`. */
  function CredentialsFor(t: Table, manufacturer: string): Credential {
    var f := FirstMatch(t, Lower(manufacturer), 0);
    if f.Some? then t[f.value].1 else DefaultCredential
  }

  /** `credentials[key] = c`: an existing key keeps its place and takes the new value; a new key
      goes after all the others. */
  function Put(t: Table, key: string, c: Credential): Table {
    if |t| == 0 then [(key, c)]
    else if t[0].0 == key then [(key, c)] + t[1..]
    else [t[0]] + Put(t[1..], key, c)
  }

  /** A put stores `c` under `key` and leaves every other key's value alone. */
  lemma {:induction false} PutGet(t: Table, key: string, c: Credential)
    ensures Get(Put(t, key, c), key) == Some(c)
    ensures forall other :: other != key ==> Get(Put(t, key, c), other) == Get(t, other)
  {
    if |t| > 0 && t[0].0 != key {
      PutGet(t[1..], key, c);
    } else if |t| > 0 {
      assert Put(t, key, c)[1..] == t[1..];
    }
  }

  /** A put keeps the order of the keys, appending a new key after all the others. */
  lemma {:induction false} PutKeys(t: Table, key: string, c: Credential)
    ensures Keys(Put(t, key, c)) == if key in Keys(t) then Keys(t) else Keys(t) + [key]
  {
    if |t| > 0 {
      assert Keys(t) == [t[0].0] + Keys(t[1..]);
      if t[0].0 != key {
        PutKeys(t[1..], key, c);
        assert Put(t, key, c) == [t[0]] + Put(t[1..], key, c);
        assert Keys(Put(t, key, c)) == [t[0].0] + Keys(Put(t[1..], key, c));
      } else {
        assert Keys(Put(t, key, c)) == [key] + Keys(t[1..]);
      }
    }
  }

  /** A put keeps the keys distinct. */
  lemma PutDistinct(t: Table, key: string, c: Credential)
    requires DistinctKeys(t)
    ensures DistinctKeys(Put(t, key, c))
  {
    PutKeys(t, key, c);
    var r := Put(t, key, c);
    forall i, j | 0 <= i < j < |r| ensures r[i].0 != r[j].0 {
      assert Keys(r)[i] == r[i].0 && Keys(r)[j] == r[j].0;
      if j < |t| {
        assert Keys(t)[i] == t[i].0 && Keys(t)[j] == t[j].0;
      }
    }
  }

  /** ASCII lower-casing is idempotent, so keys stored by `setCredentials` are lower-cased. */
  lemma LowerTwice(s: string)
    ensures Lower(Lower(s)) == Lower(s)
  {
    assert forall k :: 0 <= k < |s| ==> LowerChar(LowerChar(s[k])) == LowerChar(s[k]);
  }

  /** A key put into a lower-cased, duplicate-free table keeps it so. */
  lemma PutKeepsKeys(t: Table, manufacturer: string, c: Credential)
    requires DistinctKeys(t) && LowerKeys(t)
    ensures var r := Put(t, Lower(manufacturer), c);
      DistinctKeys(r) && LowerKeys(r)
  {
    var key := Lower(manufacturer);
    PutKeys(t, key, c);
    PutDistinct(t, key, c);
    LowerTwice(manufacturer);
    var r := Put(t, key, c);
    forall i | 0 <= i < |r| ensures Lower(r[i].0) == r[i].0 {
      assert Keys(r)[i] == r[i].0;
      if r[i].0 != key {
        var k :| 0 <= k < |t| && Keys(t)[k] == r[i].0;
      }
    }
  }

  /** When no other key occurs in `m`, the only key of the updated table that occurs in `m` is
      `m` itself, and it does. */
  lemma OnlyOwnKeyMatches(t: Table, m: string, c: Credential)
    requires forall i :: 0 <= i < |t| && t[i].0 != m ==> !Contains(m, t[i].0)
    ensures var r := Put(t, m, c);
      (forall j :: 0 <= j < |r| && Contains(m, r[j].0) ==> r[j].0 == m) &&
      exists k :: 0 <= k < |r| && r[k].0 == m && Contains(m, r[k].0)
  {
    var r := Put(t, m, c);
    PutKeys(t, m, c);
    forall j | 0 <= j < |r| && r[j].0 != m ensures !Contains(m, r[j].0) {
      assert Keys(r)[j] == r[j].0;
      assert Keys(t)[j] == t[j].0;
    }
    assert IsAt(m, m, 0);
    ContainsIff(m, m);
    assert m in Keys(r);
    var k :| 0 <= k < |r| && Keys(r)[k] == m;
    assert r[k].0 == m;
  }

  /** After `setCredentials(m, u, p)`, `getCredentials(m)` gives `(u, p)` provided no other key
      of the table occurs in `m`'s lower-cased form. */
  lemma SetThenGet(t: Table, manufacturer: string, c: Credential)
    requires forall i :: 0 <= i < |t| && t[i].0 != Lower(manufacturer) ==> !Contains(Lower(manufacturer), t[i].0)
    ensures CredentialsFor(Put(t, Lower(manufacturer), c), manufacturer) == c
  {
    var m := Lower(manufacturer);
    var r := Put(t, m, c);
    OnlyOwnKeyMatches(t, m, c);
    PutGet(t, m, c);
    var f := FirstMatch(r, m, 0);
    assert f.Some?;
    assert r[f.value].0 == m;
    GetAt(r, f.value);
  }

  /** In a table with distinct keys, the value at position `i` is the one stored under its key. */
  lemma {:induction false} GetAt(t: Table, i: nat)
    requires i < |t| && forall j :: 0 <= j < i ==> t[j].0 != t[i].0
    ensures Get(t, t[i].0) == Some(t[i].1)
  {
    if i > 0 {
      GetAt(t[1..], i - 1);
    }
  }

  /** The lower-cased form of a fixed manufacturer name. */
  lemma LowerHikvisionModel()
    ensures Lower("HIKVISION-DS2") == "hikvision-ds2"
  {
    var l := Lower("HIKVISION-DS2");
    assert l == [l[0], l[1], l[2], l[3], l[4], l[5], l[6], l[7], l[8], l[9], l[10], l[11], l[12]];
  }

  /** `getCredentials("HIKVISION-DS2")` on the initial table gives Hikvision's pair, and a name
      that holds neither key gives the default pair. */
  lemma InitialTableLookups()
    ensures CredentialsFor(InitialTable, "HIKVISION-DS2") == Credential("admin", "qwer123456")
    ensures CredentialsFor(InitialTable, "Axis") == DefaultCredential
  {
    LowerHikvisionModel();
    assert IsAt("hikvision-ds2", "hikvision", 0);
    ContainsIff("hikvision-ds2", "hikvision");
    assert |Lower("Axis")| == 4;
  }

  /** A put only appends a key that the table does not hold, so a more specific key added later
      is shadowed: after `setCredentials("hikvision-ds2", …)` a `HIKVISION-DS2` device still gets
      the `hikvision` pair, because that key comes first and occurs in the name. */
  lemma LaterKeyShadowed(c: Credential)
    ensures CredentialsFor(Put(InitialTable, Lower("HIKVISION-DS2"), c), "HIKVISION-DS2") ==
            Credential("admin", "qwer123456")
  {
    LowerHikvisionModel();
    var t := Put(InitialTable, "hikvision-ds2", c);
    assert t[0] == InitialTable[0];
    assert IsAt("hikvision-ds2", "hikvision", 0);
    ContainsIff("hikvision-ds2", "hikvision");
  }

  /** An empty key occurs in every name: once stored, the default pair is never returned. */
  lemma EmptyKeyMatchesEverything(t: Table, manufacturer: string)
    requires "" in Keys(t)
    ensures exists i :: 0 <= i < |t| && CredentialsFor(t, manufacturer) == t[i].1
  {
    var i :| 0 <= i < |t| && Keys(t)[i] == "";
    assert IsAt(Lower(manufacturer), "", 0);
    ContainsIff(Lower(manufacturer), "");
    var f := FirstMatch(t, Lower(manufacturer), 0);
    assert f.Some?;
  }

  // ---------------------------------------------------------------------
  // Discovery

  /** The job `discoveryJob` refers to: none launched yet, running, or finished or cancelled. */
  datatype Job = NoJob | Active | Ended

  /** The arguments a `FindDevices` search is created with. */
  datatype Search = Search(ipAddress: string, port: int, timeout: int)

  /** The fields of the client that discovery reads and writes. Jobs are numbered by launch:
      `jobId` is the number of the job `discoveryJob` refers to (0 before the first launch),
      and `job` is that job's state. */
  datatype Discovery = Discovery(multicastAddress: string, timeout: int, jobId: nat, job: Job, isRunning: bool)

  const Port: int := 3702

  /** The WS-Discovery multicast address, used when the host has no broadcast address. */
  const StandardAddress: string := "239.255.255.250"

  const InitialDiscovery := Discovery("192.168.43.255", 5000, 0, NoJob, false)

  /** What happens to the client: a call of one of its methods, a callback of the search, or the
      end of a launched job, named by its number (`startSearch` returning or throwing). */
  datatype Event =
    | StartCall(broadcastIp: Option<string>)
    | StopCall
    | SearchStarted
    | SearchFinished
    | SearchFailed
    | JobReturned(id: nat)
    | JobThrew(id: nat)
    | SetAddress(address: string)
    | SetTimeoutTo(millis: int)

  /** The search `startDiscovery` launches, if it launches one. */
  function Launched(d: Discovery, broadcastIp: Option<string>): Option<Search> {
    if d.isRunning then None
    else
      var address := if broadcastIp.Some? then broadcastIp.value else StandardAddress;
      Some(Search(address, Port, d.timeout))
  }

  /** The client's discovery fields after an event. */
  function After(d: Discovery, e: Event): Discovery {
    match e
    case StartCall(broadcastIp) =>
      if d.isRunning then d
      else
        d.(multicastAddress := if broadcastIp.Some? then broadcastIp.value else StandardAddress,
           jobId := d.jobId + 1, job := Active)
    case StopCall => if d.job == Active then d.(job := Ended, isRunning := false) else d
    case SearchStarted => d.(isRunning := true)
    case SearchFinished => d.(isRunning := false)
    case SearchFailed => d.(isRunning := false)
    case JobReturned(id) => if id == d.jobId && d.job == Active then d.(job := Ended) else d
    case JobThrew(id) =>
      d.(job := if id == d.jobId && d.job == Active then Ended else d.job, isRunning := false)
    case SetAddress(a) => d.(multicastAddress := a)
    case SetTimeoutTo(t) => d.(timeout := t)
  }

  /** The fields after a sequence of events. */
  function Apply(d: Discovery, evs: seq<Event>): Discovery
    decreases |evs|
  {
    if |evs| == 0 then d else Apply(After(d, evs[0]), evs[1..])
  }

  /** The events that can clear the running flag. */
  predicate Clears(e: Event) {
    e.StopCall? || e.SearchFinished? || e.SearchFailed? || e.JobThrew?
  }

  /** While the flag is up, `startDiscovery` launches nothing and changes nothing. */
  lemma StartGuarded(d: Discovery, broadcastIp: Option<string>)
    requires d.isRunning
    ensures Launched(d, broadcastIp).None? && After(d, StartCall(broadcastIp)) == d
  {
  }

  /** Otherwise it launches a search on the broadcast address (the standard multicast address
      when there is none) and the configured timeout, whatever `setMulticastAddress` stored
      before, and leaves the flag down. */
  lemma StartIgnoresStoredAddress(d: Discovery, address: string, broadcastIp: Option<string>)
    requires !d.isRunning
    ensures Launched(After(d, SetAddress(address)), broadcastIp) == Launched(d, broadcastIp)
    ensures Launched(d, broadcastIp).Some? && Launched(d, broadcastIp).value.timeout == d.timeout
    ensures After(d, StartCall(broadcastIp)).job == Active && !After(d, StartCall(broadcastIp)).isRunning
  {
  }

  /** The flag goes up only when the search reports that it started, not when it is launched:
      a second `startDiscovery` before that callback launches a second search. */
  lemma SecondStartBeforeCallback(d: Discovery, first: Option<string>, second: Option<string>)
    requires !d.isRunning
    ensures Launched(After(d, StartCall(first)), second).Some?
  {
  }

  /** `stopDiscovery` does nothing unless the job is still active. */
  lemma StopNeedsActiveJob(d: Discovery)
    ensures After(d, StopCall) == d <==> d.job != Active
  {
  }

  /** The end of a job that `discoveryJob` no longer refers to leaves the current job as it
      is; only a throwing job lowers the flag. */
  lemma StaleJobEndKeepsCurrent(d: Discovery, id: nat)
    requires id != d.jobId
    ensures After(d, JobReturned(id)) == d
    ensures After(d, JobThrew(id)) == d.(isRunning := false)
  {
  }

  /** Two launches before the first search reports its start: when the first job returns, the
      second is still active, so a later `stopDiscovery()` cancels it and lowers the flag. */
  lemma SecondJobOutlivesFirst(d: Discovery, first: Option<string>, second: Option<string>)
    requires !d.isRunning
    ensures var d' := After(After(After(After(d, StartCall(first)), StartCall(second)),
                                  JobReturned(d.jobId + 1)), SearchStarted);
            d'.job == Active && d'.jobId == d.jobId + 2 && d'.isRunning &&
            After(d', StopCall) == d'.(job := Ended, isRunning := false)
  {
  }

  /** Once the search has reported its start, the flag stays up, and every `startDiscovery`
      is refused, until a stop, a finish or a failure. */
  lemma {:induction false} RunningUntilCleared(d: Discovery, evs: seq<Event>)
    requires d.isRunning
    requires forall k :: 0 <= k < |evs| ==> !Clears(evs[k])
    ensures Apply(d, evs).isRunning
    ensures forall k :: 0 <= k < |evs| && evs[k].StartCall? ==>
      Launched(Apply(d, evs[..k]), evs[k].broadcastIp).None?
    decreases |evs|
  {
    if |evs| > 0 {
      RunningUntilCleared(After(d, evs[0]), evs[1..]);
      forall k | 0 <= k < |evs| && evs[k].StartCall?
        ensures Launched(Apply(d, evs[..k]), evs[k].broadcastIp).None?
      {
        if k > 0 {
          assert evs[..k][1..] == evs[1..][..k - 1];
          assert evs[1..][k - 1] == evs[k];
        }
      }
    }
  }

  /** The flag is raised only by the search-started callback. */
  lemma {:induction false} RaisedOnlyByCallback(d: Discovery, evs: seq<Event>)
    requires !d.isRunning && Apply(d, evs).isRunning
    ensures exists k :: 0 <= k < |evs| && evs[k] == SearchStarted
    decreases |evs|
  {
    if evs[0] != SearchStarted {
      RaisedOnlyByCallback(After(d, evs[0]), evs[1..]);
      var k :| 0 <= k < |evs[1..]| && evs[1..][k] == SearchStarted;
      assert evs[k + 1] == SearchStarted;
    }
  }

  // ---------------------------------------------------------------------
  // The client

  /** The `OnvifClient` object. */
  class OnvifClient {
    var multicastAddress: string
    const port: int
    var timeout: int
    var jobId: nat
    var job: Job
    var isRunning: bool
    var credentials: Table

    function DiscoveryState(): Discovery
      reads this
    {
      Discovery(multicastAddress, timeout, jobId, job, isRunning)
    }

    /** The port is the WS-Discovery port; the table is a map with lower-cased keys. */
    ghost predicate Valid()
      reads this
    {
      port == Port && DistinctKeys(credentials) && LowerKeys(credentials)
    }

    constructor ()
      ensures DiscoveryState() == InitialDiscovery && credentials == InitialTable && Valid()
    {
      multicastAddress := "192.168.43.255";
      port := Port;
      timeout := 5000;
      jobId := 0;
      job := NoJob;
      isRunning := false;
      credentials := InitialTable;
    }

    /** `startDiscovery(context, callback)` with `getBroadcastIp()` returning `broadcastIp`: the
        search it launches, if any. */
    method StartDiscovery(broadcastIp: Option<string>) returns (search: Option<Search>)
      requires Valid()
      modifies this
      ensures search == Launched(old(DiscoveryState()), broadcastIp)
      ensures DiscoveryState() == After(old(DiscoveryState()), StartCall(broadcastIp))
      ensures credentials == old(credentials) && Valid()
    {
      if isRunning {
        return None;
      }
      multicastAddress := if broadcastIp.Some? then broadcastIp.value else StandardAddress;
      search := Some(Search(multicastAddress, port, timeout));
      jobId := jobId + 1;
      job := Active;
    }

    /** `stopDiscovery()`: cancels an active job and lowers the flag. */
    method StopDiscovery()
      modifies this
      ensures DiscoveryState() == After(old(DiscoveryState()), StopCall)
      ensures credentials == old(credentials)
    {
      if job == Active {
        job := Ended;
        isRunning := false;
      }
    }

    /** The `onSearchStarted` callback. */
    method OnSearchStarted()
      modifies this
      ensures DiscoveryState() == After(old(DiscoveryState()), SearchStarted)
      ensures credentials == old(credentials)
    {
      isRunning := true;
    }

    /** The `onSearchFinished` callback. */
    method OnSearchFinished()
      modifies this
      ensures DiscoveryState() == After(old(DiscoveryState()), SearchFinished)
      ensures credentials == old(credentials)
    {
      isRunning := false;
    }

    /** The `onSearchFailed` callback. */
    method OnSearchFailed()
      modifies this
      ensures DiscoveryState() == After(old(DiscoveryState()), SearchFailed)
      ensures credentials == old(credentials)
    {
      isRunning := false;
    }

    /** Job number `id` ends: `startSearch` returned, or threw and the handler lowered the
        flag. Only the job `discoveryJob` still refers to changes its state. */
    method OnJobEnded(id: nat, threw: bool)
      modifies this
      ensures DiscoveryState() == After(old(DiscoveryState()), if threw then JobThrew(id) else JobReturned(id))
      ensures credentials == old(credentials)
    {
      if id == jobId && job == Active {
        job := Ended;
      }
      if threw {
        isRunning := false;
      }
    }

    /** `setMulticastAddress(address)`. */
    method SetMulticastAddress(address: string)
      modifies this
      ensures DiscoveryState() == After(old(DiscoveryState()), SetAddress(address))
      ensures credentials == old(credentials)
    {
      multicastAddress := address;
    }

    /** `setTimeout(timeout)`. */
    method SetTimeout(millis: int)
      modifies this
      ensures DiscoveryState() == After(old(DiscoveryState()), SetTimeoutTo(millis))
      ensures credentials == old(credentials)
    {
      timeout := millis;
    }

    /** `getCredentials(manufacturer)`: the entries in order, returning at the first key that
        occurs in the lower-cased name, else the default pair. */
    method GetCredentials(manufacturer: string) returns (r: Credential)
      ensures r == CredentialsFor(credentials, manufacturer)
    {
      var lowerCaseManufacturer := Lower(manufacturer);
      var i := 0;
      while i < |credentials|
        invariant i <= |credentials|
        invariant FirstMatch(credentials, lowerCaseManufacturer, i) == FirstMatch(credentials, lowerCaseManufacturer, 0)
      {
        if Contains(lowerCaseManufacturer, credentials[i].0) {
          return credentials[i].1;
        }
        i := i + 1;
      }
      return DefaultCredential;
    }

    /** `setCredentials(manufacturer, username, password)`. */
    method SetCredentials(manufacturer: string, username: string, password: string)
      requires Valid()
      modifies this
      ensures credentials == Put(old(credentials), Lower(manufacturer), Credential(username, password))
      ensures DiscoveryState() == old(DiscoveryState()) && Valid()
    {
      PutKeepsKeys(credentials, manufacturer, Credential(username, password));
      credentials := Put(credentials, Lower(manufacturer), Credential(username, password));
    }
  }
}
