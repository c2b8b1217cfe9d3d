/** `tdebug` (src/utils/debug.ts): a log call rate-limited per name, with a
    1000 ms cooldown kept in a map from name to the time of its last
    logged call. The clock is a parameter. */
module Debug {
  import opened Common

  /** The cooldown, in milliseconds. */
  const CooldownMs := 1000

  /** A call of `tdebug`: the name and the clock reading at the call. */
  datatype Call = Call(name: string, time: int)

  /** Whether a call logs: the name was never logged, or strictly more than
      the cooldown has passed since it last was. */
  predicate Due(last: map<string, int>, name: string, now: int)
  {
    name !in last || now - last[name] > CooldownMs
  }

  /** The module-level cooldown map. */
  class Cooldown {
    var last: map<string, int>

    constructor ()
      ensures last == map[]
    {
      last := map[];
    }

    /** `tdebug`: logs exactly when due; only then is the name's entry set
        to `now`, and no other name's entry ever changes. */
    method TDebug(name: string, now: int) returns (logged: bool)
      modifies this`last
      ensures logged <==> Due(old(last), name, now)
      ensures logged ==> last == old(last)[name := now]
      ensures !logged ==> last == old(last)
    {
      var previous := if name in last then Some(last[name]) else None;
      if previous.None? || now - previous.value > CooldownMs {
        last := last[name := now];
        logged := true;
      } else {
        logged := false;
      }
    }
  }

  /** A call exactly one cooldown after the last logged one is suppressed;
      one millisecond later it logs. */
  lemma CooldownBoundary(last: map<string, int>, name: string, t: int)
    ensures !Due(last[name := t], name, t + CooldownMs)
    ensures Due(last[name := t], name, t + CooldownMs + 1)
  {
  }

  /** The calls that log, out of a run of calls starting from the map `last`. */
  function Logged(last: map<string, int>, calls: seq<Call>): (r: seq<Call>)
    ensures |r| <= |calls|
    ensures forall i :: 0 <= i < |r| ==> r[i] in calls
    decreases |calls|
  {
    if calls == [] then []
    else
      var c := calls[0];
      if Due(last, c.name, c.time) then [c] + Logged(last[c.name := c.time], calls[1..])
      else Logged(last, calls[1..])
  }

  /** Every call in `r` of a name recorded in `last` comes more than the
      cooldown after the recorded time. */
  predicate AfterLast(last: map<string, int>, r: seq<Call>)
  {
    forall i :: 0 <= i < |r| && r[i].name in last ==> r[i].time - last[r[i].name] > CooldownMs
  }

  /** Any two calls in `r` of the same name are more than the cooldown apart. */
  predicate Spaced(r: seq<Call>)
  {
    forall i, j :: 0 <= i < j < |r| && r[i].name == r[j].name ==> r[j].time - r[i].time > CooldownMs
  }

  /** Over any run of calls, the logged calls of a name come more than the
      cooldown after its last recorded log and more than the cooldown apart
      from each other. */
  lemma {:induction false} LoggedSpaced(last: map<string, int>, calls: seq<Call>)
    ensures AfterLast(last, Logged(last, calls)) && Spaced(Logged(last, calls))
    decreases |calls|
  {
    if calls != [] {
      var c := calls[0];
      if Due(last, c.name, c.time) {
        var last' := last[c.name := c.time];
        LoggedSpaced(last', calls[1..]);
        var rest := Logged(last', calls[1..]);
        var r := [c] + rest;
        assert Logged(last, calls) == r;
        forall i | 0 <= i < |r| && r[i].name in last
          ensures r[i].time - last[r[i].name] > CooldownMs
        {
          if i > 0 {
            assert r[i] == rest[i - 1];
            assert r[i].name in last';
          }
        }
        forall i, j | 0 <= i < j < |r| && r[i].name == r[j].name
          ensures r[j].time - r[i].time > CooldownMs
        {
          assert r[j] == rest[j - 1];
          if i > 0 {
            assert r[i] == rest[i - 1];
          }
        }
      } else {
        LoggedSpaced(last, calls[1..]);
      }
    }
  }
}
