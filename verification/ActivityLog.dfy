/** The capped activity list in Redis: each recorder pushes its entry and then trims,
    in two commands that interleave with those of other recorders. */
module ActivityLog {

  const MAX_ENTRIES := 500

  /** `list` is newest first; `pushes` is every entry ever pushed, newest first; a
      recorder is in flight between its push and its trim. */
  datatype State<T> = State(list: seq<T>, pushes: seq<T>, inFlight: nat)

  datatype Event<T> = Push(entry: T) | Trim

  function Shortest(a: nat, b: nat): nat {
    if a <= b then a else b
  }

  /** LPUSH, and LTRIM 0 499. */
  function Step<T>(s: State<T>, e: Event<T>): State<T> {
    match e
    case Push(x) => State([x] + s.list, [x] + s.pushes, s.inFlight + 1)
    case Trim =>
      if s.inFlight == 0 then s
      else s.(list := s.list[..Shortest(MAX_ENTRIES, |s.list|)], inFlight := s.inFlight - 1)
  }

  function Run<T>(s: State<T>, es: seq<Event<T>>): State<T>
    decreases |es|
  {
    if es == [] then s else Run(Step(s, es[0]), es[1..])
  }

  ghost predicate Inv<T>(s: State<T>) {
    && s.list <= s.pushes
    && |s.list| >= Shortest(MAX_ENTRIES, |s.pushes|)
    && |s.list| <= MAX_ENTRIES + s.inFlight
  }

  lemma {:induction false} RunKeepsInv<T>(s: State<T>, es: seq<Event<T>>)
    requires Inv(s)
    ensures Inv(Run(s, es))
    decreases |es|
  {
    if es != [] {
      RunKeepsInv(Step(s, es[0]), es[1..]);
    }
  }

  /** However pushes and trims interleave, the list is the newest part of all pushes and
      never lacks one of the newest 500; when nobody is in flight it is exactly those. */
  lemma {:induction false} NewestEntriesKept<T>(es: seq<Event<T>>)
    ensures var s := Run(State([], [], 0), es);
            && s.list <= s.pushes
            && |s.list| >= (if |s.pushes| < 500 then |s.pushes| else 500)
            && (s.inFlight == 0 ==> s.list == if |s.pushes| < 500 then s.pushes else s.pushes[..500])
  {
    RunKeepsInv(State([], [], 0), es);
  }
}
