/** Launching an instance while what it needs is connected, and killing it when that changes. */
module Launcher {
  import opened Prelude

  datatype Instance<V> = Instance(n: nat, from: V)

  /** What was done to instances, in order. */
  datatype Action<V> = Build(instance: Instance<V>) | Kill(n: nat)

  /** A switch over instance streams: the last one subscribed to holds the live instance, if any. */
  datatype Switch<V> = Switch(live: Option<Instance<V>>, built: nat, trace: seq<Action<V>>, ended: bool)

  function Idle<V>(): Switch<V> {
    Switch(None, 0, [], false)
  }

  function KillLive<V>(s: Switch<V>): Switch<V> {
    if s.live.None? then s else s.(live := None, trace := s.trace + [Kill(s.live.value.n)])
  }

  /** A new value: the previous stream is disposed first, then the next instance is built, or building
      it throws and the whole stream fails. */
  function SwitchTo<V>(s: Switch<V>, v: Option<V>, throws: bool): Switch<V> {
    var s1 := KillLive(s);
    if v.None? then s1
    else if throws then s1.(ended := true)
    else
      var instance := Instance(s1.built, v.value);
      s1.(live := Some(instance), built := s1.built + 1, trace := s1.trace + [Build(instance)])
  }

  /** The subscriber leaves, or a source fails. */
  function End<V>(s: Switch<V>): Switch<V> {
    KillLive(s).(ended := true)
  }

  // ----- one source -----

  /** None when not connected. */
  datatype Input<V> = Value(v: Option<V>, throws: bool) | Stop

  function Next<V>(s: Switch<V>, i: Input<V>): Switch<V> {
    if s.ended then s
    else
      match i
      case Value(v, throws) => SwitchTo(s, v, throws)
      case Stop => End(s)
  }

  function Run<V>(inputs: seq<Input<V>>): Switch<V> {
    if inputs == [] then Idle() else Next(Run(Front(inputs)), Last(inputs))
  }

  // ----- two sources -----

  datatype Input2<A, B> =
    | First(a: Option<A>, throws: bool)
    | Second(b: Option<B>, throws: bool)
    | Stop2

  datatype Pair<A, B> = Pair(first: A, second: B)

  /** The latest value of each source, once it has one. */
  datatype Launch<A, B> = Launch(first: Option<Option<A>>, second: Option<Option<B>>, switch: Switch<Pair<A, B>>)

  function Both<A, B>(a: Option<A>, b: Option<B>): Option<Pair<A, B>> {
    if a.Some? && b.Some? then Some(Pair(a.value, b.value)) else None
  }

  /** Nothing happens before both sources have a value. */
  function Combine<A, B>(l: Launch<A, B>, throws: bool): Launch<A, B> {
    if l.first.None? || l.second.None? then l
    else l.(switch := SwitchTo(l.switch, Both(l.first.value, l.second.value), throws))
  }

  function Next2<A, B>(l: Launch<A, B>, i: Input2<A, B>): Launch<A, B> {
    if l.switch.ended then l
    else
      match i
      case First(a, throws) => Combine(l.(first := Some(a)), throws)
      case Second(b, throws) => Combine(l.(second := Some(b)), throws)
      case Stop2 => l.(switch := End(l.switch))
  }

  function Run2<A, B>(inputs: seq<Input2<A, B>>): Launch<A, B> {
    if inputs == [] then Launch(None, None, Idle()) else Next2(Run2(Front(inputs)), Last(inputs))
  }

  // ----- the code's own form -----

  class LaunchOrKill<A, B> {
    var first: Option<Option<A>>
    var second: Option<Option<B>>
    var live: Option<Instance<Pair<A, B>>>
    var built: nat
    var trace: seq<Action<Pair<A, B>>>
    var ended: bool

    function State(): Launch<A, B>
      reads this
    {
      Launch(first, second, Switch(live, built, trace, ended))
    }

    constructor ()
      ensures State() == Run2([])
    {
      first, second, live, built, trace, ended := None, None, None, 0, [], false;
    }

    method DisposeInstance()
      modifies this`live, this`trace
      ensures State() == old(State()).(switch := KillLive(old(State()).switch))
    {
      if live.Some? {
        trace := trace + [Kill(live.value.n)];
        live := None;
      }
    }

    /** Subscribing to the next instance stream runs its factory. */
    method SwitchOver(throws: bool)
      requires !ended
      modifies this
      ensures State() == Combine(old(State()), throws)
    {
      if first.None? || second.None? {
        return;
      }
      DisposeInstance();
      if first.value.Some? && second.value.Some? {
        if throws {
          ended := true;
          return;
        }
        live := Some(Instance(built, Pair(first.value.value, second.value.value)));
        trace := trace + [Build(live.value)];
        built := built + 1;
      }
    }

    method OnFirst(a: Option<A>, throws: bool)
      modifies this
      ensures State() == Next2(old(State()), First(a, throws))
    {
      if !ended {
        first := Some(a);
        SwitchOver(throws);
      }
    }

    method OnSecond(b: Option<B>, throws: bool)
      modifies this
      ensures State() == Next2(old(State()), Second(b, throws))
    {
      if !ended {
        second := Some(b);
        SwitchOver(throws);
      }
    }

    method Dispose()
      modifies this
      ensures State() == Next2(old(State()), Stop2)
    {
      if !ended {
        DisposeInstance();
        ended := true;
      }
    }
  }

  // ----- one life after the other -----

  /** Builds and kills take turns, each kill ends the instance just built, and instances are numbered in
      order: so at most one is alive, and each was disposed exactly once before the next was built. */
  predicate OneAtATime<V>(trace: seq<Action<V>>) {
    forall i :: 0 <= i < |trace| ==>
                  if i % 2 == 0 then trace[i].Build? && trace[i].instance.n == i / 2 else trace[i] == Kill(i / 2)
  }

  ghost predicate SwitchOk<V(!new)>(s: Switch<V>) {
    && OneAtATime(s.trace)
    && s.built == (|s.trace| + 1) / 2
    && (s.live.Some? <==> |s.trace| % 2 == 1)
    && (s.live.Some? ==> Last(s.trace) == Build(s.live.value))
    && (s.ended ==> s.live.None?)
  }

  lemma KillKeeps<V(!new)>(s: Switch<V>)
    requires SwitchOk(s)
    ensures SwitchOk(KillLive(s)) && KillLive(s).live.None?
  {
  }

  lemma SwitchKeeps<V(!new)>(s: Switch<V>, v: Option<V>, throws: bool)
    requires SwitchOk(s) && !s.ended
    ensures SwitchOk(SwitchTo(s, v, throws)) && SwitchOk(End(s))
  {
    KillKeeps(s);
  }

  /** Whether the stream is over: stopped, or building an instance threw. */
  predicate IsOver<V>(inputs: seq<Input<V>>) {
    inputs != [] &&
    (|| IsOver(Front(inputs))
     || Last(inputs).Stop?
     || (Last(inputs).v.Some? && Last(inputs).throws))
  }

  /** What the last value calls for. */
  function Wanted<V>(inputs: seq<Input<V>>): Option<V> {
    if inputs == [] || IsOver(inputs) then None else Last(inputs).v
  }

  function FromOf<V>(live: Option<Instance<V>>): Option<V> {
    if live.Some? then Some(live.value.from) else None
  }

  /** Over every sequence of values of one source: one instance at a time, and the live one is what the
      latest value calls for. */
  lemma {:induction false} LiveIsWanted<V(!new)>(inputs: seq<Input<V>>)
    ensures SwitchOk(Run(inputs))
    ensures Run(inputs).ended <==> IsOver(inputs)
    ensures FromOf(Run(inputs).live) == Wanted(inputs)
  {
    if inputs != [] {
      LiveIsWanted(Front(inputs));
      var s := Run(Front(inputs));
      if !s.ended {
        match Last(inputs) {
          case Value(v, throws) => SwitchKeeps(s, v, throws);
          case Stop => SwitchKeeps(s, None, false);
        }
      }
    }
  }

  // ----- two sources are one source of pairs -----

  function LatestFirst<A, B>(inputs: seq<Input2<A, B>>): Option<Option<A>> {
    if inputs == [] then None else if Last(inputs).First? then Some(Last(inputs).a) else LatestFirst(Front(inputs))
  }

  function LatestSecond<A, B>(inputs: seq<Input2<A, B>>): Option<Option<B>> {
    if inputs == [] then None else if Last(inputs).Second? then Some(Last(inputs).b) else LatestSecond(Front(inputs))
  }

  predicate BothUp<A, B>(inputs: seq<Input2<A, B>>) {
    && LatestFirst(inputs).Some? && LatestFirst(inputs).value.Some?
    && LatestSecond(inputs).Some? && LatestSecond(inputs).value.Some?
  }

  predicate IsOver2<A, B>(inputs: seq<Input2<A, B>>) {
    inputs != [] &&
    (|| IsOver2(Front(inputs))
     || Last(inputs).Stop2?
     || (BothUp(inputs) && Last(inputs).throws))
  }

  /** Over every sequence of notifications from both sources: at most one instance is undisposed, each is
      disposed exactly once before its successor is built, one is live exactly while both sources are
      connected, and it was built from the latest values of both. */
  lemma {:induction false} LiveIsLatestBoth<A(!new), B(!new)>(inputs: seq<Input2<A, B>>)
    ensures SwitchOk(Run2(inputs).switch)
    ensures Run2(inputs).switch.ended <==> IsOver2(inputs)
    ensures !IsOver2(inputs) ==> Run2(inputs).first == LatestFirst(inputs) && Run2(inputs).second == LatestSecond(inputs)
    ensures FromOf(Run2(inputs).switch.live) ==
            if !IsOver2(inputs) && BothUp(inputs) then Some(Pair(LatestFirst(inputs).value.value, LatestSecond(inputs).value.value))
            else None
  {
    if inputs != [] {
      LiveIsLatestBoth(Front(inputs));
      var l := Run2(Front(inputs));
      if !l.switch.ended {
        StepKeeps(l, Last(inputs));
      }
    }
  }

  lemma StepKeeps<A(!new), B(!new)>(l: Launch<A, B>, i: Input2<A, B>)
    requires SwitchOk(l.switch) && !l.switch.ended
    ensures SwitchOk(Next2(l, i).switch)
  {
    match i {
      case First(a, throws) =>
        if l.second.Some? {
          SwitchKeeps(l.switch, Both(a, l.second.value), throws);
        }
      case Second(b, throws) =>
        if l.first.Some? {
          SwitchKeeps(l.switch, Both(l.first.value, b), throws);
        }
      case Stop2 => SwitchKeeps(l.switch, None, false);
    }
  }

  // ----- every notification while connected builds anew -----

  /** The values instances were to be built from, one for each value that could be, in order. */
  function CalledFor<V>(inputs: seq<Input<V>>): seq<V> {
    if inputs == [] then []
    else CalledFor(Front(inputs)) + if !IsOver(inputs) && Last(inputs).v.Some? then [Last(inputs).v.value] else []
  }

  function CalledForBoth<A, B>(inputs: seq<Input2<A, B>>): seq<Pair<A, B>> {
    if inputs == [] then []
    else
      CalledForBoth(Front(inputs)) +
      if !IsOver2(inputs) && BothUp(inputs) then [Pair(LatestFirst(inputs).value.value, LatestSecond(inputs).value.value)] else []
  }

  /** What was built, in order. */
  function BuiltFrom<V>(trace: seq<Action<V>>): seq<V> {
    if trace == [] then [] else BuiltFrom(Front(trace)) + if Last(trace).Build? then [Last(trace).instance.from] else []
  }

  lemma BuiltSnoc<V>(trace: seq<Action<V>>, a: Action<V>)
    ensures BuiltFrom(trace + [a]) == BuiltFrom(trace) + if a.Build? then [a.instance.from] else []
  {
  }

  lemma KillBuildsNothing<V>(s: Switch<V>)
    ensures BuiltFrom(KillLive(s).trace) == BuiltFrom(s.trace)
  {
    if s.live.Some? {
      BuiltSnoc(s.trace, Kill(s.live.value.n));
    }
  }

  lemma SwitchBuilds<V>(s: Switch<V>, v: Option<V>, throws: bool)
    ensures BuiltFrom(SwitchTo(s, v, throws).trace) == BuiltFrom(s.trace) + if v.Some? && !throws then [v.value] else []
    ensures BuiltFrom(End(s).trace) == BuiltFrom(s.trace)
  {
    KillBuildsNothing(s);
    if v.Some? && !throws {
      BuiltSnoc(KillLive(s).trace, Build(Instance(s.built, v.value)));
    }
  }

  /** Over every sequence of values: one instance was built for each value while connected, from it and in
      order, a repeated value building a new one. */
  lemma {:induction false} EachValueBuilds<V(!new)>(inputs: seq<Input<V>>)
    ensures BuiltFrom(Run(inputs).trace) == CalledFor(inputs)
  {
    if inputs != [] {
      EachValueBuilds(Front(inputs));
      LiveIsWanted(Front(inputs));
      var s := Run(Front(inputs));
      if !s.ended {
        match Last(inputs) {
          case Value(v, throws) => SwitchBuilds(s, v, throws);
          case Stop => SwitchBuilds(s, None, false);
        }
      }
    }
  }

  /** With two sources: one for each notification of either that finds both connected. */
  lemma {:induction false} EachPairBuilds<A(!new), B(!new)>(inputs: seq<Input2<A, B>>)
    ensures BuiltFrom(Run2(inputs).switch.trace) == CalledForBoth(inputs)
  {
    if inputs != [] {
      EachPairBuilds(Front(inputs));
      LiveIsLatestBoth(Front(inputs));
      var l := Run2(Front(inputs));
      if !l.switch.ended {
        match Last(inputs) {
          case First(a, throws) => SwitchBuilds(l.switch, Both(a, if l.second.Some? then l.second.value else None), throws);
          case Second(b, throws) => SwitchBuilds(l.switch, Both(if l.first.Some? then l.first.value else None, b), throws);
          case Stop2 => SwitchBuilds(l.switch, None, false);
        }
      }
    }
  }
}
