/** LightsEngine from lights_engine.py: the smart bulb's three-mode,
    edge-triggered state machine. A mode request launches the flux_led bulb
    tool only when the bulb is not already in that mode; each launch is
    modelled as the argument list it is started with. */
module Lights {

  datatype Mode = Danger | Normal | Charging

  /** The bulb the engine drives. */
  const BulbAddr: string := "192.168.1.106"

  /** The interpreter the bulb tool is started with. */
  const Interpreter: string := "C:\\Python27\\python.exe"

  /** The value the state field holds in each mode. */
  function ModeName(m: Mode): string
  {
    match m
    case Danger => "danger"
    case Normal => "normal"
    case Charging => "charging"
  }

  /** The effect arguments: a fast red strobe, a slow green-violet fade, and
      a very slow green-yellow fade. */
  function Effect(m: Mode): seq<string>
  {
    match m
    case Danger => ["strobe", "120", "255,0,0"]
    case Normal => ["gradual", "30", "0,255,0 170,0,255"]
    case Charging => ["gradual", "200", "0,255,0, 255,255,0"]
  }

  /** The argument list the bulb tool is started with for mode m. */
  function BulbArgs(m: Mode): seq<string>
  {
    [Interpreter, "flux_led.py", BulbAddr, "-C"] + Effect(m)
  }

  /** The state field and the launches so far. */
  datatype Lights = Lights(state: string, launches: seq<seq<string>>)

  /** A request for mode m: one launch when the state differs from the mode's
      name, none otherwise; either way the state becomes the mode's name. */
  function Request(l: Lights, m: Mode): (r: Lights)
    ensures r.state == ModeName(m)
    ensures l.state != ModeName(m) ==> r.launches == l.launches + [BulbArgs(m)]
    ensures l.state == ModeName(m) ==> r.launches == l.launches
  {
    if l.state != ModeName(m) then Lights(ModeName(m), l.launches + [BulbArgs(m)])
    else Lights(ModeName(m), l.launches)
  }

  /** Requests one after another. */
  function Run(l: Lights, ms: seq<Mode>): Lights
    decreases |ms|
  {
    if ms == [] then l else Run(Request(l, ms[0]), ms[1..])
  }

  /** The state in force just before the i-th request. */
  function Before(state: string, ms: seq<Mode>, i: nat): string
    requires i < |ms|
  {
    if i == 0 then state else ModeName(ms[i - 1])
  }

  /** The number of requests that ask for a mode other than the current one,
      counted independently of Run: from the last request backwards. */
  function Changes(state: string, ms: seq<Mode>): nat
    decreases |ms|
  {
    if ms == [] then 0
    else
      var n := |ms| - 1;
      Changes(state, ms[..n]) + (if Before(state, ms, n) != ModeName(ms[n]) then 1 else 0)
  }

  /** The three modes launch three different commands, and every launch goes
      to the same bulb through the same tool. */
  lemma BulbArgsDistinct(a: Mode, b: Mode)
    ensures BulbArgs(a) == BulbArgs(b) <==> a == b
    ensures BulbArgs(a)[..4] == [Interpreter, "flux_led.py", BulbAddr, "-C"]
  {
    if a != b {
      assert Effect(a) != Effect(b) by {
        assert Effect(a)[0] != Effect(b)[0] || Effect(a)[1] != Effect(b)[1];
      }
      assert BulbArgs(a)[4..] == Effect(a) && BulbArgs(b)[4..] == Effect(b);
    }
  }

  /** Asking for the same mode twice: the second request launches nothing and
      leaves the state as it was. */
  lemma RequestIdempotent(l: Lights, m: Mode)
    ensures Request(Request(l, m), m) == Request(l, m)
  {
  }

  /** After a run the state names the last mode requested. */
  lemma {:induction false} RunFinalState(l: Lights, ms: seq<Mode>)
    ensures Run(l, ms).state == if ms == [] then l.state else ModeName(ms[|ms| - 1])
    decreases |ms|
  {
    if ms != [] {
      RunFinalState(Request(l, ms[0]), ms[1..]);
    }
  }

  /** One more request after a run is one more step of the run. */
  lemma {:induction false} RunSnoc(l: Lights, ms: seq<Mode>, m: Mode)
    ensures Run(l, ms + [m]) == Request(Run(l, ms), m)
    decreases |ms|
  {
    if ms == [] {
      assert [m][1..] == [];
    } else {
      assert (ms + [m])[1..] == ms[1..] + [m];
      RunSnoc(Request(l, ms[0]), ms[1..], m);
    }
  }

  /** One command per actual transition: a run launches the bulb tool exactly
      as many times as a request asked for a mode other than the current one,
      and never otherwise. */
  lemma {:induction false} OneCommandPerTransition(l: Lights, ms: seq<Mode>)
    ensures |Run(l, ms).launches| == |l.launches| + Changes(l.state, ms)
    decreases |ms|
  {
    if ms != [] {
      var n := |ms| - 1;
      assert ms == ms[..n] + [ms[n]];
      RunSnoc(l, ms[..n], ms[n]);
      OneCommandPerTransition(l, ms[..n]);
      RunFinalState(l, ms[..n]);
      assert Run(l, ms[..n]).state == Before(l.state, ms, n);
    }
  }

  /** The engine object: the current mode name, and the launches it made. */
  class LightsEngine {
    var state: string
    ghost var launches: seq<seq<string>>

    /** The state field always names one of the three modes once the
        constructor has run. */
    ghost predicate Valid()
      reads this
    {
      state == ModeName(Mode.Danger) || state == ModeName(Mode.Normal) || state == ModeName(Mode.Charging)
    }

    /** The engine starts with an empty state and switches to normal: the
        bulb gets exactly one command, the normal fade. */
    constructor ()
      ensures Valid()
      ensures state == ModeName(Mode.Normal)
      ensures launches == [BulbArgs(Mode.Normal)]
    {
      state := "";
      launches := [];
      new;
      Normal();
    }

    method Danger()
      modifies this
      ensures Valid()
      ensures Lights(state, launches) == Request(old(Lights(state, launches)), Mode.Danger)
    {
      if state != "danger" {
        launches := launches + [BulbArgs(Mode.Danger)];
        state := "danger";
      }
    }

    method Normal()
      modifies this
      ensures Valid()
      ensures Lights(state, launches) == Request(old(Lights(state, launches)), Mode.Normal)
    {
      if state != "normal" {
        launches := launches + [BulbArgs(Mode.Normal)];
        state := "normal";
      }
    }

    method Charging()
      modifies this
      ensures Valid()
      ensures Lights(state, launches) == Request(old(Lights(state, launches)), Mode.Charging)
    {
      if state != "charging" {
        launches := launches + [BulbArgs(Mode.Charging)];
        state := "charging";
      }
    }
  }
}
