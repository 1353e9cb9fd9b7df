/**
 * pollDevices (index.js:68-86) visits every key of the dictionary, and the
 * startup sweep (index.js:44) leaves the slots of purged accessories set to
 * `null`.  As written, the loop reads `accessory.context` of such a slot and
 * throws a TypeError, which the call at index.js:63 does not catch.
 * `Registry.PollAsWritten` models that loop; `Registry.Poll`, which the
 * platform class uses, passes over `null` slots.
 */
module Findings {
  import opened Wrappers
  import opened Registry
  import opened Properties

  /** Where no slot is `null`, the loop as written and the corrected loop agree. */
  lemma {:induction false} WalkAgreesWithoutNulls(s: State, hosts: seq<Host>, outcome: Host -> PollResult)
    requires HasDevices(s)
    requires forall h | h in hosts && h in s.slots :: s.slots[h].Some?
    ensures PollWalk(s, hosts, outcome) == Completed(PollHosts(s, hosts, outcome))
    decreases |hosts|
  {
    if hosts != [] {
      PollHostEffect(s, hosts[0], outcome);
      assert forall h | h in hosts[1..] :: h in hosts;
      WalkAgreesWithoutNulls(PollHost(s, hosts[0], outcome), hosts[1..], outcome);
    }
  }

  /** As written, a pass that meets a `null` slot throws there, at a slot that was `null` before the pass. */
  lemma {:induction false} WalkCrashesOnNull(s: State, hosts: seq<Host>, outcome: Host -> PollResult, h: Host)
    requires HasDevices(s)
    requires h in hosts && h in s.slots && s.slots[h].None?
    ensures PollWalk(s, hosts, outcome).Crashed?
    ensures var at := PollWalk(s, hosts, outcome).at; at in hosts && at in s.slots && s.slots[at].None?
    decreases |hosts|
  {
    if !(hosts[0] in s.slots && s.slots[hosts[0]].None?) {
      assert h != hosts[0] && h in hosts[1..];
      PollHostEffect(s, hosts[0], outcome);
      WalkCrashesOnNull(PollHost(s, hosts[0], outcome), hosts[1..], outcome, h);
    }
  }

  /**
   * At launch, if any cached accessory is of another plugin version, the
   * sweep nulls its slot and the pollDevices call that follows throws.
   */
  lemma StartupPollCrashes(s: State, v: string, outcome: Host -> PollResult, stale: Host)
    requires WellFormed(s) && NoNulls(s)
    requires stale in s.slots && Stale(s.slots[stale].value, v)
    ensures forall h | h in s.order :: Holds(s, h)
    ensures HasDevices(Purge(s, v))
    ensures PollAsWritten(Purge(s, v), outcome).Crashed?
  {
    PurgeSweep(s, v);
    var p := Purge(s, v);
    assert stale in p.order && p.slots[stale].None?;
    WalkCrashesOnNull(p, p.order, outcome, stale);
  }

  /**
   * The corrected pass after the same sweep completes, queries each
   * remaining plug once, and passes over the purged slots untouched.
   */
  lemma StartupPollCorrected(s: State, v: string, outcome: Host -> PollResult)
    requires WellFormed(s) && NoNulls(s)
    ensures forall h | h in s.order :: Holds(s, h)
    ensures WellFormed(Purge(s, v))
    ensures |Poll(Purge(s, v), outcome).queries| >= |Purge(s, v).queries|
    ensures var p := Purge(s, v);
      var q := Poll(p, outcome).queries[|p.queries|..];
      && (forall h :: h in QueryHosts(q) <==> IsPlug(p, h))
      && Distinct(QueryHosts(q))
      && (forall h | h in p.slots && p.slots[h].None? :: h in Poll(p, outcome).slots && Poll(p, outcome).slots[h].None?)
  {
    PurgeLeavesCurrent(s, v);
    PollSweep(Purge(s, v), outcome);
  }

  /** Without stale accessories the sweep nulls nothing, and the pass as written completes like the corrected one. */
  lemma CurrentCacheDoesNotCrash(s: State, v: string, outcome: Host -> PollResult)
    requires WellFormed(s) && NoNulls(s)
    requires forall h | h in s.slots :: !Stale(s.slots[h].value, v)
    ensures forall h | h in s.order :: Holds(s, h)
    ensures HasDevices(Purge(s, v))
    ensures PollAsWritten(Purge(s, v), outcome) == Completed(Poll(Purge(s, v), outcome))
  {
    PurgeSweep(s, v);
    PurgeLeavesCurrent(s, v);
    WalkAgreesWithoutNulls(Purge(s, v), Purge(s, v).order, outcome);
  }

  /** One plug cached by plugin version 0.1.0, restarted under 0.2.0: the first poll throws at its host. */
  lemma OneOutdatedPlug(outcome: Host -> PollResult)
    ensures var host := "chuangmi-plug-m1_miapA1B2.local";
      var info := MiioInfo("chuangmi.plug.m1", "A1B2", host, 54321);
      var r := Record(PlugNamePrefix + "A1B2", UuidOf(host), Context(Features(true), info, Some("0.1.0")),
                      false, Some(Device(info)), Some(Outlet(false, true)), 1);
      var s := State(map[host := Some(r)], [host], [], [], []);
      && WellFormed(s) && NoNulls(s)
      && (forall h | h in s.order :: Holds(s, h))
      && HasDevices(Purge(s, "0.2.0"))
      && PollAsWritten(Purge(s, "0.2.0"), outcome) == Crashed(Purge(s, "0.2.0"), host)
  {
    var host := "chuangmi-plug-m1_miapA1B2.local";
    var info := MiioInfo("chuangmi.plug.m1", "A1B2", host, 54321);
    var r := Record(PlugNamePrefix + "A1B2", UuidOf(host), Context(Features(true), info, Some("0.1.0")),
                    false, Some(Device(info)), Some(Outlet(false, true)), 1);
    var s := State(map[host := Some(r)], [host], [], [], []);
    assert Stale(r, "0.2.0");
    PurgeSweep(s, "0.2.0");
  }
}
