/** The OpenWrt adapter: plugs the DNS proxy into OpenWrt's dnsmasq through
    the `uci` configuration database, a directive file and an init script. */
module OpenWrt {
  import opened Gateway
  import opened Strings
  import opened ProxyConfig
  import Template

  const PortKey := "dhcp.@dnsmasq[0].port"
  const ServerKey := "dhcp.@dnsmasq[0].server"
  /** `/etc/init.d/dnsmasq restart`. */
  const Restart := Exec(["/etc/init.d/dnsmasq", "restart"])
  /** The directive file's permission bits, 0644. */
  const FileMode := 420
  const DefaultPath := "/tmp/dnsmasq.d/nextdns.conf"
  const DefaultListenPort := "5342"

  /** The adapter's fields. */
  datatype RouterState = RouterState(
    dnsmasqPath: string,
    listenPort: string,
    clientReporting: bool,
    cacheEnabled: bool,
    setPort0: bool,
    savedForwarders: string)

  /** What the template reads from the adapter. */
  function Data(s: RouterState): Template.Data {
    Template.Data(s.cacheEnabled, s.setPort0, s.clientReporting, s.listenPort)
  }

  /** Writing the rendered directive file. */
  function WriteOp(s: RouterState): Op {
    WriteTemplate(s.dnsmasqPath, Template.OpenWrt, Data(s), FileMode)
  }

  /** The file the takeover writes holds, one per line, the header and then
      either the cache comment, with `port=0` only when `SetPort0` is set,
      or the delegation directives. */
  lemma WrittenFile(s: RouterState)
    ensures Template.Execute(WriteOp(s).tmpl, WriteOp(s).data) ==
      Template.FileText(
        if s.cacheEnabled then [Template.Header, Template.Handled] + (if s.setPort0 then [Template.Port0] else [])
        else [Template.Header, Template.NoResolv, Template.ServerPrefix + s.listenPort]
             + if s.clientReporting then [Template.AddMac, Template.AddSubnet] else [])
  {
    Template.OpenWrtRendersLines(Data(s));
    var extra := if s.clientReporting then [Template.AddMac, Template.AddSubnet] else [];
    var port0 := if s.setPort0 then [Template.Port0] else [];
    if s.cacheEnabled {
      assert [Template.Header] + ([Template.Handled] + port0) == [Template.Header, Template.Handled] + port0;
    } else {
      assert [Template.Header] + ([Template.NoResolv, Template.ServerPrefix + s.listenPort] + extra) ==
        [Template.Header, Template.NoResolv, Template.ServerPrefix + s.listenPort] + extra;
    }
  }

  /** The database key the takeover looks up first. */
  function LookupKey(cacheEnabled: bool): string {
    if cacheEnabled then PortKey else ServerKey
  }

  /** The adapter's new fields, every operation issued so far in order, and
      the error returned. */
  datatype Effect = Effect(next: RouterState, trace: seq<Op>, status: Status)

  /** Writes the directive file and then restarts dnsmasq, after `trace`. */
  function WriteAndRestart(s: RouterState, trace: seq<Op>, answer: Oracle): Effect {
    var wrote := trace + [WriteOp(s)];
    if !answer(|trace|, WriteOp(s)).Ok? then Effect(s, wrote, Failure(WriteOp(s)))
    else if !answer(|wrote|, Restart).Ok? then Effect(s, wrote + [Restart], Failure(Restart))
    else Effect(s, wrote + [Restart], Success)
  }

  /** Deletes `key` from the database and commits, then goes on to the file. */
  function ClearKey(s: RouterState, key: string, trace: seq<Op>, answer: Oracle): Effect {
    var deleted := trace + [UciDelete(key)];
    if !answer(|trace|, UciDelete(key)).Ok? then Effect(s, deleted, Failure(UciDelete(key)))
    else if !answer(|deleted|, UciCommit).Ok? then Effect(s, deleted + [UciCommit], Failure(UciCommit))
    else WriteAndRestart(s, deleted + [UciCommit], answer)
  }

  /** The takeover of dnsmasq (`setupDNSMasq`) after the operations `trace`.
      With the cache on it makes room for `port=0`; otherwise it saves and
      clears dnsmasq's upstream servers. A failed lookup of the server list
      leaves the saved list empty, the value `uci` returns beside an error. */
  function Takeover(s: RouterState, trace: seq<Op>, answer: Oracle): Effect {
    var key := LookupKey(s.cacheEnabled);
    var get := UciGet(key);
    var looked := trace + [get];
    if s.cacheEnabled then
      match answer(|trace|, get)
      case NotFound => WriteAndRestart(s.(setPort0 := true), looked, answer)
      case Failed => Effect(s, looked, Failure(get))
      case Ok(port) => if port == "53" then ClearKey(s, key, looked, answer) else WriteAndRestart(s, looked, answer)
    else
      match answer(|trace|, get)
      case NotFound => WriteAndRestart(s.(savedForwarders := ""), looked, answer)
      case Failed => Effect(s.(savedForwarders := ""), looked, Failure(get))
      case Ok(servers) => ClearKey(s.(savedForwarders := servers), key, looked, answer)
  }

  // ---------------------------------------------------------------------
  // The takeover as a plan

  /** How the reply to the lookup changes the adapter, which database
      mutations follow it, and whether the takeover goes on. */
  datatype Decision = Decision(next: RouterState, mutations: seq<Op>, proceed: bool)

  function Decide(s: RouterState, got: Reply): Decision {
    var clear := [UciDelete(LookupKey(s.cacheEnabled)), UciCommit];
    if s.cacheEnabled then
      match got
      case NotFound => Decision(s.(setPort0 := true), [], true)
      case Failed => Decision(s, [], false)
      case Ok(port) => Decision(s, if port == "53" then clear else [], true)
    else
      match got
      case NotFound => Decision(s.(savedForwarders := ""), [], true)
      case Failed => Decision(s.(savedForwarders := ""), [], false)
      case Ok(servers) => Decision(s.(savedForwarders := servers), clear, true)
  }

  /** What follows a lookup that lets the takeover go on: the database
      mutations, the file write and the restart, each ending the takeover
      when it fails. */
  function TakeoverPlan(d: Decision): seq<Step> {
    Checked(d.mutations) + [Step(WriteOp(d.next), true), Step(Restart, true)]
  }

  lemma WriteAndRestartPlays(s: RouterState, trace: seq<Op>, answer: Oracle)
    ensures var e := WriteAndRestart(s, trace, answer);
      Outcome(e.trace, e.status) == Play(trace, [Step(WriteOp(s), true), Step(Restart, true)], answer)
  {
    var plan := [Step(WriteOp(s), true), Step(Restart, true)];
    assert plan[1..] == [Step(Restart, true)];
    PlayLast(trace + [WriteOp(s)], Step(Restart, true), answer);
  }

  lemma ClearKeyPlays(s: RouterState, key: string, trace: seq<Op>, answer: Oracle)
    ensures var e := ClearKey(s, key, trace, answer);
      Outcome(e.trace, e.status) ==
      Play(trace, [Step(UciDelete(key), true), Step(UciCommit, true), Step(WriteOp(s), true), Step(Restart, true)], answer)
  {
    var plan := [Step(UciDelete(key), true), Step(UciCommit, true), Step(WriteOp(s), true), Step(Restart, true)];
    assert plan[1..][1..] == [Step(WriteOp(s), true), Step(Restart, true)];
    WriteAndRestartPlays(s, trace + [UciDelete(key)] + [UciCommit], answer);
  }

  /** The takeover's first operation. */
  function Lookup(s: RouterState): Op {
    UciGet(LookupKey(s.cacheEnabled))
  }

  /** The decision the host's reply to the lookup leads to. */
  function Reached(s: RouterState, trace: seq<Op>, answer: Oracle): Decision {
    Decide(s, answer(|trace|, Lookup(s)))
  }

  /** The lookup's reply alone decides the adapter's new fields. */
  lemma TakeoverNext(s: RouterState, trace: seq<Op>, answer: Oracle)
    ensures Takeover(s, trace, answer).next == Reached(s, trace, answer).next
  {
  }

  /** A lookup that fails other than by "not found" ends the takeover with
      its error before anything else is issued. */
  lemma TakeoverAborts(s: RouterState, trace: seq<Op>, answer: Oracle)
    requires answer(|trace|, Lookup(s)).Failed?
    ensures Takeover(s, trace, answer).trace == trace + [Lookup(s)]
    ensures Takeover(s, trace, answer).status == Failure(Lookup(s))
  {
  }

  /** Otherwise the takeover is its lookup followed by one fixed plan chosen
      by the lookup's reply, issued in order and stopped by the first
      failure. */
  lemma TakeoverFollowsPlan(s: RouterState, trace: seq<Op>, answer: Oracle)
    requires Reached(s, trace, answer).proceed
    ensures Outcome(Takeover(s, trace, answer).trace, Takeover(s, trace, answer).status) ==
      Play(trace + [Lookup(s)], TakeoverPlan(Reached(s, trace, answer)), answer)
  {
    var d := Reached(s, trace, answer);
    if |d.mutations| == 0 {
      assert TakeoverPlan(d) == [Step(WriteOp(d.next), true), Step(Restart, true)];
      WriteAndRestartPlays(d.next, trace + [Lookup(s)], answer);
    } else {
      var key := LookupKey(s.cacheEnabled);
      assert d.mutations == [UciDelete(key), UciCommit];
      CheckedPair(UciDelete(key), UciCommit);
      ClearKeyPlays(d.next, key, trace + [Lookup(s)], answer);
    }
  }

  /** Everything the takeover would issue if no operation after the lookup
      failed: the lookup, the database mutations, the file write and the
      restart, or the lookup alone when its failure ends the takeover. */
  function TakeoverOps(s: RouterState, got: Reply): seq<Op> {
    var d := Decide(s, got);
    [Lookup(s)] + if d.proceed then d.mutations + [WriteOp(d.next), Restart] else []
  }

  /** No operation changes the configuration database. */
  predicate NoMutation(ops: seq<Op>) {
    forall i :: 0 <= i < |ops| ==> !Mutates(ops[i])
  }

  /** The takeover issues its operations in one fixed order: what it issued
      is the start of that order, ended by the first failure. */
  lemma TakeoverOrder(s: RouterState, trace: seq<Op>, answer: Oracle)
    ensures |trace| < |Takeover(s, trace, answer).trace|
    ensures Takeover(s, trace, answer).trace ==
      trace + TakeoverOps(s, answer(|trace|, Lookup(s)))[..|Takeover(s, trace, answer).trace| - |trace|]
  {
    if !Reached(s, trace, answer).proceed {
      TakeoverAborts(s, trace, answer);
      assert TakeoverOps(s, answer(|trace|, Lookup(s)))[..1] == [Lookup(s)];
    } else {
      TakeoverOrderPlayed(s, trace, answer);
    }
  }

  lemma TakeoverOrderPlayed(s: RouterState, trace: seq<Op>, answer: Oracle)
    requires Reached(s, trace, answer).proceed
    ensures |trace| < |Takeover(s, trace, answer).trace|
    ensures Takeover(s, trace, answer).trace ==
      trace + TakeoverOps(s, answer(|trace|, Lookup(s)))[..|Takeover(s, trace, answer).trace| - |trace|]
  {
    var get := Lookup(s);
    var d := Reached(s, trace, answer);
    TakeoverFollowsPlan(s, trace, answer);
    var plan := TakeoverPlan(d);
    PlayIssuesPrefix(trace + [get], plan, answer);
    var rest := d.mutations + [WriteOp(d.next), Restart];
    TakeoverPlanOps(d);
    var m := |Takeover(s, trace, answer).trace| - |trace| - 1;
    assert TakeoverOps(s, answer(|trace|, get)) == [get] + rest;
    assert ([get] + rest)[..m + 1] == [get] + rest[..m];
  }

  lemma TakeoverPlanOps(d: Decision)
    ensures Ops(TakeoverPlan(d)) == d.mutations + [WriteOp(d.next), Restart]
  {
    OpsAppend(Checked(d.mutations), [Step(WriteOp(d.next), true), Step(Restart, true)]);
    OpsChecked(d.mutations);
    assert Ops([Step(WriteOp(d.next), true), Step(Restart, true)]) == [WriteOp(d.next), Restart];
  }

  /** The takeover ends with the error of the last operation it issued, or
      succeeds exactly when it issued everything up to the restart and the
      restart went through. */
  lemma TakeoverEnds(s: RouterState, trace: seq<Op>, answer: Oracle)
    ensures var e := Takeover(s, trace, answer);
      e.status.Failure? ==> e.status.cause == e.trace[|e.trace| - 1]
    ensures var e := Takeover(s, trace, answer);
      e.status.Success? <==>
        Reached(s, trace, answer).proceed &&
        e.trace == trace + TakeoverOps(s, answer(|trace|, Lookup(s))) &&
        answer(|e.trace| - 1, Restart).Ok?
  {
    TakeoverOrder(s, trace, answer);
    var d := Reached(s, trace, answer);
    var e := Takeover(s, trace, answer);
    if !d.proceed {
      TakeoverAborts(s, trace, answer);
    } else {
      TakeoverFollowsPlan(s, trace, answer);
      var plan := TakeoverPlan(d);
      PlayFailureIsLast(trace + [Lookup(s)], plan, answer);
      PlaySucceeds(trace + [Lookup(s)], plan, answer);
      assert |TakeoverOps(s, answer(|trace|, Lookup(s)))| == 1 + |plan|;
    }
  }

  /** With the cache on, a missing `port` entry makes the file carry
      `port=0` and changes nothing in the database. */
  lemma CachePortMissing(s: RouterState, trace: seq<Op>, answer: Oracle)
    requires s.cacheEnabled && answer(|trace|, Lookup(s)).NotFound?
    ensures Takeover(s, trace, answer).next == s.(setPort0 := true)
    ensures NoMutation(Takeover(s, trace, answer).trace[|trace|..])
  {
    TakeoverOrder(s, trace, answer);
    var ops := TakeoverOps(s, answer(|trace|, Lookup(s)));
    assert ops == [Lookup(s), WriteOp(s.(setPort0 := true)), Restart];
  }

  /** With the cache on, a `port` of 53 is deleted and the deletion
      committed, in that order, and `SetPort0` is left as it was. */
  lemma CachePort53(s: RouterState, trace: seq<Op>, answer: Oracle)
    requires s.cacheEnabled && answer(|trace|, Lookup(s)) == Ok("53")
    ensures Takeover(s, trace, answer).next == s
    ensures Takeover(s, trace, answer).trace[|trace|..] <=
      [UciGet(PortKey), UciDelete(PortKey), UciCommit, WriteOp(s), Restart]
  {
    TakeoverOrder(s, trace, answer);
    var ops := TakeoverOps(s, answer(|trace|, Lookup(s)));
    assert ops == [UciGet(PortKey), UciDelete(PortKey), UciCommit, WriteOp(s), Restart];
  }

  /** With the cache on, any other `port` is left alone. */
  lemma CachePortOther(s: RouterState, trace: seq<Op>, answer: Oracle)
    requires s.cacheEnabled && answer(|trace|, Lookup(s)).Ok? && answer(|trace|, Lookup(s)).out != "53"
    ensures Takeover(s, trace, answer).next == s
    ensures NoMutation(Takeover(s, trace, answer).trace[|trace|..])
  {
    TakeoverOrder(s, trace, answer);
    var ops := TakeoverOps(s, answer(|trace|, Lookup(s)));
    assert ops == [Lookup(s), WriteOp(s), Restart];
  }

  /** With the cache off, a found server list is saved, then deleted from
      the database and the deletion committed, in that order. */
  lemma ServersFound(s: RouterState, trace: seq<Op>, answer: Oracle)
    requires !s.cacheEnabled && answer(|trace|, Lookup(s)).Ok?
    ensures var next := s.(savedForwarders := answer(|trace|, Lookup(s)).out);
      Takeover(s, trace, answer).next == next &&
      Takeover(s, trace, answer).trace[|trace|..] <=
        [UciGet(ServerKey), UciDelete(ServerKey), UciCommit, WriteOp(next), Restart]
  {
    TakeoverOrder(s, trace, answer);
    var next := s.(savedForwarders := answer(|trace|, Lookup(s)).out);
    var ops := TakeoverOps(s, answer(|trace|, Lookup(s)));
    assert ops == [UciGet(ServerKey), UciDelete(ServerKey), UciCommit, WriteOp(next), Restart];
  }

  /** With the cache off, a missing server list saves nothing and changes
      nothing in the database. */
  lemma ServersMissing(s: RouterState, trace: seq<Op>, answer: Oracle)
    requires !s.cacheEnabled && answer(|trace|, Lookup(s)).NotFound?
    ensures Takeover(s, trace, answer).next == s.(savedForwarders := "")
    ensures NoMutation(Takeover(s, trace, answer).trace[|trace|..])
  {
    TakeoverOrder(s, trace, answer);
    var ops := TakeoverOps(s, answer(|trace|, Lookup(s)));
    assert ops == [Lookup(s), WriteOp(s.(savedForwarders := "")), Restart];
  }

  // ---------------------------------------------------------------------
  // Restore

  /** One `add_list` per saved server, in order. */
  function AddSteps(pieces: seq<string>): (steps: seq<Step>)
    ensures |steps| == |pieces|
  {
    if pieces == [] then [] else [Step(UciAddList(ServerKey, pieces[0]), true)] + AddSteps(pieces[1..])
  }

  /** What `Restore` issues: the saved servers back and a commit when any
      were saved, then the file removal, whose failure is ignored, then the
      restart. */
  function RestorePlan(s: RouterState): seq<Step> {
    RestoreDatabase(s) + RestoreEnd(s)
  }

  /** The removal of the file, whose failure is ignored, and the restart. */
  function RestoreEnd(s: RouterState): seq<Step> {
    [Step(Remove(s.dnsmasqPath), false), Step(Restart, true)]
  }

  lemma {:induction false} AddStepsAt(pieces: seq<string>, i: nat)
    requires i < |pieces|
    ensures AddSteps(pieces)[i] == Step(UciAddList(ServerKey, pieces[i]), true)
    decreases |pieces|
  {
    if i > 0 {
      AddStepsAt(pieces[1..], i - 1);
    }
  }

  /** The database part of `Restore`: one `add_list` per saved server and a
      commit, or nothing when no servers were saved. */
  function RestoreDatabase(s: RouterState): seq<Step> {
    if s.savedForwarders != ""
    then AddSteps(Split(s.savedForwarders, ' ')) + [Step(UciCommit, true)]
    else []
  }

  lemma DatabaseAddAt(s: RouterState, i: nat)
    requires s.savedForwarders != "" && i < |Split(s.savedForwarders, ' ')|
    ensures RestoreDatabase(s)[i] == Step(UciAddList(ServerKey, Split(s.savedForwarders, ' ')[i]), true)
  {
    AddStepsAt(Split(s.savedForwarders, ' '), i);
  }

  /** The database part ends with the commit, which decides how it ends. */
  lemma DatabaseCommitAt(s: RouterState, trace: seq<Op>, answer: Oracle)
    requires s.savedForwarders != ""
    ensures Play(trace, RestoreDatabase(s)[|Split(s.savedForwarders, ' ')|..], answer) ==
      Outcome(trace + [UciCommit], if answer(|trace|, UciCommit).Ok? then Success else Failure(UciCommit))
  {
    assert RestoreDatabase(s)[|Split(s.savedForwarders, ' ')|..] == [Step(UciCommit, true)];
    PlayLast(trace, Step(UciCommit, true), answer);
  }

  /** After the database part: the removal, then the restart, which alone
      decides how `Restore` ends. */
  lemma RestoreEndPlays(s: RouterState, trace: seq<Op>, answer: Oracle)
    ensures Play(trace, RestoreEnd(s), answer) ==
      Outcome(trace + [Remove(s.dnsmasqPath), Restart],
              if answer(|trace| + 1, Restart).Ok? then Success else Failure(Restart))
  {
    UncheckedThenChecked(trace, Remove(s.dnsmasqPath), Restart, answer);
  }

  /** With servers saved, `Restore` adds back each piece of the saved list,
      split on single spaces, in order, then commits once; the pieces joined
      by spaces are the saved list again. */
  lemma RestoreReAdds(s: RouterState)
    requires s.savedForwarders != ""
    ensures var pieces := Split(s.savedForwarders, ' ');
      |RestorePlan(s)| == |pieces| + 3 &&
      (forall i :: 0 <= i < |pieces| ==> RestorePlan(s)[i] == Step(UciAddList(ServerKey, pieces[i]), true)) &&
      RestorePlan(s)[|pieces|] == Step(UciCommit, true) &&
      Join(pieces, ' ') == s.savedForwarders
  {
    var pieces := Split(s.savedForwarders, ' ');
    forall i | 0 <= i < |pieces|
      ensures RestorePlan(s)[i] == Step(UciAddList(ServerKey, pieces[i]), true)
    {
      AddStepsAt(pieces, i);
    }
    JoinSplit(s.savedForwarders, ' ');
  }

  /** With no servers saved, `Restore` touches only the file and the service. */
  lemma RestoreNothingSaved(s: RouterState)
    requires s.savedForwarders == ""
    ensures RestorePlan(s) == [Step(Remove(s.dnsmasqPath), false), Step(Restart, true)]
  {
  }

  /** Every database step of `Restore` changes the database and is checked. */
  lemma RestoreDatabaseMutates(s: RouterState, j: nat)
    requires j < |RestoreDatabase(s)|
    ensures RestoreDatabase(s)[j].checked && Mutates(RestoreDatabase(s)[j].op)
  {
    var pieces := Split(s.savedForwarders, ' ');
    if j < |pieces| {
      AddStepsAt(pieces, j);
    }
  }

  /** `Restore` fails only on a database step or on the restart: a failed
      removal of the file is ignored, and once the database steps went
      through the removal and then the restart are always issued. */
  lemma RestoreAlwaysRestarts(s: RouterState, trace: seq<Op>, answer: Oracle)
    ensures var r := Play(trace, RestorePlan(s), answer);
      r.status.Failure? ==> Mutates(r.status.cause) || r.status.cause == Restart
    ensures var r := Play(trace, RestorePlan(s), answer);
      r.status.Success? || r.status == Failure(Restart) ==>
        |r.trace| >= 2 && r.trace[|r.trace| - 2..] == [Remove(s.dnsmasqPath), Restart]
  {
    var db := RestoreDatabase(s);
    var tail := [Step(Remove(s.dnsmasqPath), false), Step(Restart, true)];
    assert RestorePlan(s) == db + tail;
    var first := Play(trace, db, answer);
    if first.status.Failure? {
      PlayAppendFailed(trace, db, tail, answer);
      PlayStops(trace, db, answer);
      RestoreDatabaseMutates(s, |first.trace| - |trace| - 1);
    } else {
      PlayAppendPassed(trace, db, tail, answer);
      var t := first.trace;
      assert tail[1..] == [Step(Restart, true)];
      PlayLast(t + [Remove(s.dnsmasqPath)], Step(Restart, true), answer);
      assert (t + [Remove(s.dnsmasqPath)] + [Restart])[|t|..] == [Remove(s.dnsmasqPath), Restart];
    }
  }

  // ---------------------------------------------------------------------
  // The adapter

  /** The OpenWrt adapter. */
  class Router {
    var dnsmasqPath: string
    var listenPort: string
    var clientReporting: bool
    var cacheEnabled: bool
    var setPort0: bool
    var savedForwarders: string

    function State(): RouterState
      reads this
    {
      RouterState(dnsmasqPath, listenPort, clientReporting, cacheEnabled, setPort0, savedForwarders)
    }

    constructor (dnsmasqPath: string, listenPort: string)
      ensures State() == RouterState(dnsmasqPath, listenPort, false, false, false, "")
    {
      this.dnsmasqPath := dnsmasqPath;
      this.listenPort := listenPort;
      clientReporting, cacheEnabled, setPort0 := false, false, false;
      savedForwarders := "";
    }

    /** Chooses the mode from the proxy's cache size. With a positive size the
        proxy takes port 53 and dnsmasq is taken over at once; otherwise the
        proxy listens on the loopback port and the takeover waits for Setup. */
    method Configure(c: Config, parse: ByteParser, host: Host) returns (err: Status)
      modifies this, c, host
      ensures c.reportClientInfo == old(c.reportClientInfo) && c.cacheSize == old(c.cacheSize)
      ensures var positive := CacheBytes(parse(old(c.cacheSize))) > 0;
        c.listens == if positive then [":53"] else ["127.0.0.1:" + old(listenPort)]
      ensures var positive := CacheBytes(parse(old(c.cacheSize))) > 0;
        var s := old(State()).(clientReporting := old(c.reportClientInfo), cacheEnabled := old(cacheEnabled) || positive);
        if positive then
          var e := Takeover(s, old(host.trace), host.answer);
          State() == e.next && host.trace == e.trace && err == e.status
        else
          State() == s && host.trace == old(host.trace) && err == Success
    {
      c.listens := ["127.0.0.1:" + listenPort];
      clientReporting := c.reportClientInfo;
      if CacheBytes(parse(c.cacheSize)) > 0 {
        cacheEnabled := true;
        c.listens := [":53"];
        err := SetupDNSMasq(host);
        return;
      }
      return Success;
    }

    /** Takes dnsmasq over unless Configure already did. */
    method Setup(host: Host) returns (err: Status)
      modifies this, host
      ensures old(cacheEnabled) ==> State() == old(State()) && host.trace == old(host.trace) && err == Success
      ensures !old(cacheEnabled) ==>
        var e := Takeover(old(State()), old(host.trace), host.answer);
        State() == e.next && host.trace == e.trace && err == e.status
    {
      if !cacheEnabled {
        err := SetupDNSMasq(host);
        return;
      }
      return Success;
    }

    /** A fresh adapter configured and then set up, as its caller does it,
        stopping at a configuration error: whatever the cache size, dnsmasq is
        taken over exactly once. */
    method ConfigureThenSetup(c: Config, parse: ByteParser, host: Host) returns (err: Status)
      requires !cacheEnabled
      modifies this, c, host
      ensures var s := old(State()).(clientReporting := old(c.reportClientInfo),
                                    cacheEnabled := CacheBytes(parse(old(c.cacheSize))) > 0);
        var e := Takeover(s, old(host.trace), host.answer);
        State() == e.next && host.trace == e.trace && err == e.status
    {
      err := Configure(c, parse, host);
      if err.Failure? {
        return;
      }
      err := Setup(host);
    }

    method SetupDNSMasq(host: Host) returns (err: Status)
      modifies this, host
      ensures var e := Takeover(old(State()), old(host.trace), host.answer);
        State() == e.next && host.trace == e.trace && err == e.status
    {
      ghost var e := Takeover(State(), host.trace, host.answer);
      if cacheEnabled {
        var port := host.Issue(UciGet(PortKey));
        if port.NotFound? {
          setPort0 := true;
        } else if port.Failed? {
          return Failure(UciGet(PortKey));
        } else if port.out == "53" {
          var deleted := host.Issue(UciDelete(PortKey));
          if !deleted.Ok? {
            return Failure(UciDelete(PortKey));
          }
          var committed := host.Issue(UciCommit);
          if !committed.Ok? {
            return Failure(UciCommit);
          }
        }
      } else {
        var servers := host.Issue(UciGet(ServerKey));
        savedForwarders := if servers.Ok? then servers.out else "";
        if servers.Failed? {
          return Failure(UciGet(ServerKey));
        }
        if servers.Ok? {
          var deleted := host.Issue(UciDelete(ServerKey));
          if !deleted.Ok? {
            return Failure(UciDelete(ServerKey));
          }
          var committed := host.Issue(UciCommit);
          if !committed.Ok? {
            return Failure(UciCommit);
          }
        }
      }
      assert e == WriteAndRestart(State(), host.trace, host.answer);
      var wrote := host.Issue(WriteOp(State()));
      if !wrote.Ok? {
        return Failure(WriteOp(State()));
      }
      var restarted := host.Issue(Restart);
      if !restarted.Ok? {
        return Failure(Restart);
      }
      return Success;
    }

    /** Puts the saved upstream servers back, one `add_list` each, and
        commits; the first database error ends it. */
    method PutBackServers(host: Host) returns (err: Status)
      modifies host
      ensures Outcome(host.trace, err) == Play(old(host.trace), RestoreDatabase(State()), host.answer)
    {
      ghost var plan := RestoreDatabase(State());
      ghost var whole := Play(host.trace, plan, host.answer);
      if savedForwarders == "" {
        return Success;
      }
      var pieces := Split(savedForwarders, ' ');
      assert plan[0..] == plan;
      for i := 0 to |pieces|
        invariant whole == Play(host.trace, plan[i..], host.answer)
      {
        DatabaseAddAt(State(), i);
        PlayFrom(host.trace, plan, i, host.answer);
        var reply := host.Issue(UciAddList(ServerKey, pieces[i]));
        if !reply.Ok? {
          return Failure(UciAddList(ServerKey, pieces[i]));
        }
      }
      DatabaseCommitAt(State(), host.trace, host.answer);
      var committed := host.Issue(UciCommit);
      if !committed.Ok? {
        return Failure(UciCommit);
      }
      return Success;
    }

    /** Puts the saved upstream servers back, removes the directive file
        (ignoring a failure) and restarts dnsmasq. */
    method Restore(host: Host) returns (err: Status)
      modifies host
      ensures Outcome(host.trace, err) == Play(old(host.trace), RestorePlan(State()), host.answer)
    {
      ghost var start := host.trace;
      err := PutBackServers(host);
      if err.Failure? {
        PlayAppendFailed(start, RestoreDatabase(State()), RestoreEnd(State()), host.answer);
        return;
      }
      PlayAppendPassed(start, RestoreDatabase(State()), RestoreEnd(State()), host.answer);
      RestoreEndPlays(State(), host.trace, host.answer);
      var _ := host.Issue(Remove(dnsmasqPath));
      var restarted := host.Issue(Restart);
      if !restarted.Ok? {
        return Failure(Restart);
      }
      return Success;
    }
  }

  /** Detects OpenWrt from the OS-identification file: found exactly when it
      was read and its ID is "openwrt". */
  method New(release: Option<map<string, string>>) returns (r: Router?, found: bool)
    ensures found <==> release.Some? && "ID" in release.value && release.value["ID"] == "openwrt"
    ensures found ==> r != null && fresh(r) && r.State() == RouterState(DefaultPath, DefaultListenPort, false, false, false, "")
    ensures !found ==> r == null
  {
    if release.None? || "ID" !in release.value || release.value["ID"] != "openwrt" {
      return null, false;
    }
    r := new Router(DefaultPath, DefaultListenPort);
    found := true;
  }
}
