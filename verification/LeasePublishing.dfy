/** Changes of leases that are published after the lock was dropped
    (crates/hub/src/machine_manager.rs: `register_device`, `request_control` and
    `remove_machine`; the other two publish while they hold it). */
module LeasePublishing {
  import opened Basics
  import opened Leases
  import LeaseRuns

  /** `runs.hub.log` lists the changes in the order in which they were made. Each
      change is published either at once or later, by its own thread. */
  datatype World = World(
    runs: LeaseRuns.World,
    threads: seq<seq<Entry>>,   // what each thread has still to publish
    log: seq<Entry>)            // what was published, in order

  datatype Step = Do(step: LeaseRuns.Step) | Publish(thread: nat)

  function Initial(): World { World(LeaseRuns.Initial(), [], []) }

  /** Does the operation drop the lock before it publishes? */
  predicate PublishesLate(s: LeaseRuns.Step)
  {
    s.Open? || s.Request? || s.Remove?
  }

  function Made(w: World): seq<Entry> { w.runs.hub.log }

  /** The changes an operation makes. */
  function News(w: LeaseRuns.World, s: LeaseRuns.Step): seq<Entry>
  {
    var before, after := w.hub.log, LeaseRuns.Next(w, s).hub.log;
    if |before| <= |after| then after[|before|..] else []
  }

  ghost predicate Enabled(w: World, s: Step)
  {
    match s
    case Do(step) => LeaseRuns.Enabled(w.runs, step)
    case Publish(i) => i < |w.threads| && w.threads[i] != []
  }

  function Next(w: World, s: Step): World
  {
    match s
    case Do(step) =>
      var news := News(w.runs, step);
      var n := w.(runs := LeaseRuns.Next(w.runs, step));
      if PublishesLate(step) then n.(threads := w.threads + [news]) else n.(log := w.log + news)
    case Publish(i) =>
      if i >= |w.threads| || w.threads[i] == [] then w
      else w.(threads := w.threads[i := w.threads[i][1..]], log := w.log + [w.threads[i][0]])
  }

  ghost predicate Possible(w: World, steps: seq<Step>)
    decreases |steps|
  {
    steps == [] || (Enabled(w, steps[0]) && Possible(Next(w, steps[0]), steps[1..]))
  }

  function Run(w: World, steps: seq<Step>): World
    decreases |steps|
  {
    if steps == [] then w else Run(Next(w, steps[0]), steps[1..])
  }

  /** Nothing is left to publish. */
  predicate Settled(w: World)
  {
    forall i | 0 <= i < |w.threads| :: w.threads[i] == []
  }

  // ----- what is published is what was made -----

  ghost predicate Inv(w: World)
  {
    LeaseRuns.Inv(w.runs) && multiset(w.log) + multiset(Concat(w.threads)) == multiset(Made(w))
  }

  lemma NewsAppend(w: LeaseRuns.World, s: LeaseRuns.Step)
    ensures LeaseRuns.Next(w, s).hub.log == w.hub.log + News(w, s)
  {
  }

  lemma Together<T>(a: seq<T>, b: seq<T>)
    ensures multiset(a + b) == multiset(a) + multiset(b)
  {
  }

  lemma ConcatPush<T>(threads: seq<seq<T>>, last: seq<T>)
    ensures Concat(threads + [last]) == Concat(threads) + last
  {
    ConcatAppend(threads, [last]);
    assert Concat([last]) == last + Concat([]) == last;
  }

  /** The threads before, the one, and the threads after. */
  lemma ConcatAt<T>(threads: seq<seq<T>>, i: nat, x: seq<T>)
    requires i < |threads|
    ensures Concat(threads[i := x]) == Concat(threads[..i]) + (x + Concat(threads[i + 1..]))
  {
    assert threads[i := x] == threads[..i] + ([x] + threads[i + 1..]);
    ConcatAppend(threads[..i], [x] + threads[i + 1..]);
    assert ([x] + threads[i + 1..])[1..] == threads[i + 1..];
  }

  lemma HeadOut<T>(a: seq<T>, x: seq<T>, b: seq<T>)
    requires x != []
    ensures multiset(a + (x + b)) == multiset{x[0]} + multiset(a + (x[1..] + b))
  {
    assert x == [x[0]] + x[1..];
    Together(a, x + b);
    Together(x, b);
    Together([x[0]], x[1..]);
    Together(a, x[1..] + b);
    Together(x[1..], b);
  }

  lemma PublishKeeps(w: World, i: nat)
    requires Inv(w) && i < |w.threads| && w.threads[i] != []
    ensures Inv(Next(w, Publish(i)))
  {
    var x := w.threads[i];
    assert w.threads[i := x] == w.threads;
    ConcatAt(w.threads, i, x);
    ConcatAt(w.threads, i, x[1..]);
    HeadOut(Concat(w.threads[..i]), x, Concat(w.threads[i + 1..]));
    Together(w.log, [x[0]]);
  }

  lemma DoKeeps(w: World, step: LeaseRuns.Step)
    requires Inv(w) && LeaseRuns.Enabled(w.runs, step)
    ensures Inv(Next(w, Do(step)))
  {
    LeaseRuns.NextKeeps(w.runs, step);
    var news := News(w.runs, step);
    NewsAppend(w.runs, step);
    ConcatPush(w.threads, news);
    MoreNews(w.log, Concat(w.threads), Made(w), news);
  }

  /** Wherever news goes, what is published and what waits are what was made. */
  lemma MoreNews(log: seq<Entry>, held: seq<Entry>, made: seq<Entry>, news: seq<Entry>)
    requires multiset(log) + multiset(held) == multiset(made)
    ensures multiset(log + news) + multiset(held) == multiset(made + news)
    ensures multiset(log) + multiset(held + news) == multiset(made + news)
  {
    Together(log, news);
    Together(held, news);
    Together(made, news);
  }

  lemma {:induction false} RunKeeps(w: World, steps: seq<Step>)
    requires Inv(w) && Possible(w, steps)
    ensures Inv(Run(w, steps))
    decreases |steps|
  {
    if steps != [] {
      match steps[0] {
        case Do(step) => DoKeeps(w, step);
        case Publish(i) => PublishKeeps(w, i);
      }
      RunKeeps(Next(w, steps[0]), steps[1..]);
    }
  }

  // ----- what a browser makes of it -----

  predicate About(e: Entry, u: Name, machine: Name)
  {
    e.user == u && e.event.machine == machine
  }

  function Controller(e: Event): Option<Name>
  {
    if e.ModeChanged? then e.controller else None
  }

  /** What the last entry about a machine says of it, if there is one. */
  function Latest(log: seq<Entry>, u: Name, machine: Name): Option<Option<Name>>
  {
    if log == [] then None
    else
      var last := log[|log| - 1];
      if About(last, u, machine) then Some(Controller(last.event)) else Latest(log[..|log| - 1], u, machine)
  }

  function Holder(leases: map<Name, Name>, machine: Name): Option<Name>
  {
    if machine in leases then Some(leases[machine]) else None
  }

  lemma {:induction false} FoldIsLatest(log: seq<Entry>, u: Name, machine: Name)
    ensures Holder(Fold(log, u), machine)
            == if Latest(log, u, machine).None? then None else Latest(log, u, machine).value
  {
    if log != [] {
      FoldIsLatest(log[..|log| - 1], u, machine);
    }
  }

  lemma {:induction false} LatestExists(log: seq<Entry>, u: Name, machine: Name)
    ensures Latest(log, u, machine).Some? <==> exists e | e in log :: About(e, u, machine)
  {
    if log != [] {
      var n := |log| - 1;
      LatestExists(log[..n], u, machine);
      assert forall e :: e in log <==> e in log[..n] || e == log[n];
    }
  }

  lemma {:induction false} SettledEmpty(threads: seq<seq<Entry>>)
    requires forall i | 0 <= i < |threads| :: threads[i] == []
    ensures Concat(threads) == []
  {
    if threads != [] {
      SettledEmpty(threads[1..]);
    }
  }

  /** Main result: in every run, once nothing is left to publish, a browser that
      folds the published events agrees with the hub about a machine exactly if the
      change of it published last says what the change made last says. */
  lemma AgreesExactly(start: World, steps: seq<Step>, u: Name, machine: Name)
    requires start == Initial() && Possible(start, steps) && Settled(Run(start, steps))
    ensures var w := Run(start, steps);
      Holder(Fold(w.log, u), machine) == Holder(ModeOf(w.runs.hub.modes, u).leases, machine)
      <==> Latest(w.log, u, machine) == Latest(Made(w), u, machine)
  {
    var w := Run(start, steps);
    LeaseRuns.InitialInv();
    assert Concat(start.threads) == [];
    RunKeeps(start, steps);
    SettledEmpty(w.threads);
    FoldIsLatest(w.log, u, machine);
    FoldIsLatest(Made(w), u, machine);
    SameEntries(w.log, Made(w), u, machine);
  }

  lemma SameEntries(a: seq<Entry>, b: seq<Entry>, u: Name, machine: Name)
    requires multiset(a) == multiset(b)
    ensures Latest(a, u, machine).Some? <==> Latest(b, u, machine).Some?
  {
    LatestExists(a, u, machine);
    LatestExists(b, u, machine);
    assert forall e :: e in a <==> e in multiset(a);
    assert forall e :: e in b <==> e in multiset(b);
  }

  // ----- when the order cannot go wrong -----

  function Only(log: seq<Entry>, u: Name, machine: Name): seq<Entry>
  {
    if log == [] then []
    else (if About(log[0], u, machine) then [log[0]] else []) + Only(log[1..], u, machine)
  }

  lemma {:induction false} OnlyAppend(a: seq<Entry>, b: seq<Entry>, u: Name, machine: Name)
    ensures Only(a + b, u, machine) == Only(a, u, machine) + Only(b, u, machine)
  {
    if a == [] {
      assert a + b == b;
    } else {
      assert (a + b)[1..] == a[1..] + b && (a + b)[0] == a[0];
      OnlyAppend(a[1..], b, u, machine);
      Assoc(if About(a[0], u, machine) then [a[0]] else [], Only(a[1..], u, machine), Only(b, u, machine));
    }
  }

  lemma {:induction false} OnlyNone(threads: seq<seq<Entry>>, u: Name, machine: Name)
    requires forall i | 0 <= i < |threads| :: Only(threads[i], u, machine) == []
    ensures Only(Concat(threads), u, machine) == []
  {
    if threads != [] {
      OnlyNone(threads[1..], u, machine);
      OnlyAppend(threads[0], Concat(threads[1..]), u, machine);
    }
  }

  lemma {:induction false} LatestOnly(log: seq<Entry>, u: Name, machine: Name)
    ensures Latest(log, u, machine) == Latest(Only(log, u, machine), u, machine)
  {
    if log != [] {
      var n := |log| - 1;
      LatestOnly(log[..n], u, machine);
      assert log == log[..n] + [log[n]];
      OnlyAppend(log[..n], [log[n]], u, machine);
      assert [log[n]][1..] == [];
      var before := Only(log[..n], u, machine);
      if About(log[n], u, machine) {
        assert Only(log, u, machine) == before + [log[n]];
      } else {
        assert Only(log, u, machine) == before;
      }
    }
  }

  /** At most one thread has something to publish about the machine. */
  predicate OneThread(threads: seq<seq<Entry>>, u: Name, machine: Name)
  {
    forall i, j | 0 <= i < j < |threads| :: Only(threads[i], u, machine) == [] || Only(threads[j], u, machine) == []
  }

  /** Changes of the machine are published in the order in which they are made. */
  predicate InTurn(w: World, u: Name, machine: Name)
  {
    && Only(w.log, u, machine) + Only(Concat(w.threads), u, machine) == Only(Made(w), u, machine)
    && OneThread(w.threads, u, machine)
  }

  /** The step changes the machine's lease while a change of it is unpublished. */
  predicate Races(w: World, s: Step, u: Name, machine: Name)
  {
    s.Do? && Only(News(w.runs, s.step), u, machine) != [] && Only(Concat(w.threads), u, machine) != []
  }

  predicate RaceFree(w: World, steps: seq<Step>, u: Name, machine: Name)
    decreases |steps|
  {
    steps == [] || (!Races(w, steps[0], u, machine) && RaceFree(Next(w, steps[0]), steps[1..], u, machine))
  }

  lemma {:induction false} SomeThread(threads: seq<seq<Entry>>, i: nat, u: Name, machine: Name)
    requires i < |threads| && Only(Concat(threads), u, machine) == []
    ensures Only(threads[i], u, machine) == []
  {
    assert threads[i := threads[i]] == threads;
    ConcatAt(threads, i, threads[i]);
    OnlyAppend(Concat(threads[..i]), threads[i] + Concat(threads[i + 1..]), u, machine);
    OnlyAppend(threads[i], Concat(threads[i + 1..]), u, machine);
  }

  lemma OneThreadPush(threads: seq<seq<Entry>>, news: seq<Entry>, u: Name, machine: Name)
    requires OneThread(threads, u, machine)
    requires Only(Concat(threads), u, machine) == [] || Only(news, u, machine) == []
    ensures OneThread(threads + [news], u, machine)
  {
    if Only(Concat(threads), u, machine) == [] {
      forall i | 0 <= i < |threads| ensures Only(threads[i], u, machine) == [] {
        SomeThread(threads, i, u, machine);
      }
    }
  }

  lemma DoInTurn(w: World, step: LeaseRuns.Step, u: Name, machine: Name)
    requires InTurn(w, u, machine) && !Races(w, Do(step), u, machine)
    ensures InTurn(Next(w, Do(step)), u, machine)
  {
    var news := News(w.runs, step);
    NewsAppend(w.runs, step);
    OnlyAppend(Made(w), news, u, machine);
    var log, held, more := Only(w.log, u, machine), Only(Concat(w.threads), u, machine), Only(news, u, machine);
    if PublishesLate(step) {
      ConcatPush(w.threads, news);
      OnlyAppend(Concat(w.threads), news, u, machine);
      Assoc(log, held, more);
      OneThreadPush(w.threads, news, u, machine);
    } else {
      OnlyAppend(w.log, news, u, machine);
      EitherFirst(log, held, more);
    }
  }

  lemma EitherFirst<T>(log: seq<T>, held: seq<T>, more: seq<T>)
    requires held == [] || more == []
    ensures (log + held) + more == (log + more) + held
  {
  }

  lemma OnlyAt(threads: seq<seq<Entry>>, i: nat, x: seq<Entry>, u: Name, machine: Name)
    requires i < |threads|
    requires forall j | 0 <= j < |threads| && j != i :: Only(threads[j], u, machine) == []
    ensures Only(Concat(threads[i := x]), u, machine) == Only(x, u, machine)
  {
    ConcatAt(threads, i, x);
    OnlyAppend(Concat(threads[..i]), x + Concat(threads[i + 1..]), u, machine);
    OnlyAppend(x, Concat(threads[i + 1..]), u, machine);
    OnlyNone(threads[..i], u, machine);
    OnlyNone(threads[i + 1..], u, machine);
  }

  lemma OthersEmpty(threads: seq<seq<Entry>>, i: nat, x: seq<Entry>, u: Name, machine: Name)
    requires OneThread(threads, u, machine) && i < |threads| && Only(threads[i], u, machine) != []
    ensures forall j | 0 <= j < |threads| && j != i :: Only(threads[j], u, machine) == []
    ensures OneThread(threads[i := x], u, machine)
  {
  }

  /** Publishing a change of the machine: nothing else about it is waiting. */
  lemma PublishAbout(w: World, i: nat, u: Name, machine: Name)
    requires InTurn(w, u, machine) && i < |w.threads| && w.threads[i] != [] && About(w.threads[i][0], u, machine)
    ensures InTurn(Next(w, Publish(i)), u, machine)
  {
    var x := w.threads[i];
    assert w.threads[i := x] == w.threads;
    OthersEmpty(w.threads, i, x[1..], u, machine);
    OnlyAt(w.threads, i, x, u, machine);
    OnlyAt(w.threads, i, x[1..], u, machine);
    HeadMoves(w.log, x, u, machine);
  }

  lemma HeadMoves(log: seq<Entry>, x: seq<Entry>, u: Name, machine: Name)
    requires x != [] && About(x[0], u, machine)
    ensures Only(log + [x[0]], u, machine) + Only(x[1..], u, machine) == Only(log, u, machine) + Only(x, u, machine)
  {
    OnlyOne(x[0], u, machine);
    OnlyAppend(log, [x[0]], u, machine);
    Assoc(Only(log, u, machine), [x[0]], Only(x[1..], u, machine));
  }

  lemma OnlyOne(e: Entry, u: Name, machine: Name)
    ensures Only([e], u, machine) == if About(e, u, machine) then [e] else []
  {
    assert [e][1..] == [];
  }

  /** Publishing anything else. */
  lemma PublishOther(w: World, i: nat, u: Name, machine: Name)
    requires InTurn(w, u, machine) && i < |w.threads| && w.threads[i] != [] && !About(w.threads[i][0], u, machine)
    ensures InTurn(Next(w, Publish(i)), u, machine)
  {
    var x := w.threads[i];
    assert w.threads[i := x] == w.threads && [x[0]][1..] == [];
    assert Only(x[1..], u, machine) == Only(x, u, machine);
    SameOnly(w.threads, i, x[1..], u, machine);
    OnlyAppend(w.log, [x[0]], u, machine);
  }

  lemma SameOnly(threads: seq<seq<Entry>>, i: nat, x: seq<Entry>, u: Name, machine: Name)
    requires i < |threads| && Only(x, u, machine) == Only(threads[i], u, machine)
    ensures Only(Concat(threads[i := x]), u, machine) == Only(Concat(threads), u, machine)
  {
    assert threads[i := threads[i]] == threads;
    ConcatAt(threads, i, x);
    ConcatAt(threads, i, threads[i]);
    var a, b := Concat(threads[..i]), Concat(threads[i + 1..]);
    OnlyAppend(a, x + b, u, machine);
    OnlyAppend(x, b, u, machine);
    OnlyAppend(a, threads[i] + b, u, machine);
    OnlyAppend(threads[i], b, u, machine);
  }

  lemma {:induction false} RunInTurn(w: World, steps: seq<Step>, u: Name, machine: Name)
    requires InTurn(w, u, machine) && RaceFree(w, steps, u, machine)
    ensures InTurn(Run(w, steps), u, machine)
    decreases |steps|
  {
    if steps != [] {
      match steps[0] {
        case Do(step) => DoInTurn(w, step, u, machine);
        case Publish(i) =>
          if i < |w.threads| && w.threads[i] != [] {
            if About(w.threads[i][0], u, machine) {
              PublishAbout(w, i, u, machine);
            } else {
              PublishOther(w, i, u, machine);
            }
          }
      }
      RunInTurn(Next(w, steps[0]), steps[1..], u, machine);
    }
  }

  /** Main result: if no change of a machine is made while another one of it is
      unpublished, the browsers agree about it in the end. */
  lemma RaceFreeRunsAgree(start: World, steps: seq<Step>, u: Name, machine: Name)
    requires start == Initial() && Possible(start, steps) && Settled(Run(start, steps))
    requires RaceFree(start, steps, u, machine)
    ensures var w := Run(start, steps);
      Holder(Fold(w.log, u), machine) == Holder(ModeOf(w.runs.hub.modes, u).leases, machine)
  {
    var w := Run(start, steps);
    AgreesExactly(start, steps, u, machine);
    assert Only(Concat(start.threads), u, machine) == [];
    RunInTurn(start, steps, u, machine);
    SettledEmpty(w.threads);
    assert Only(w.log, u, machine) + [] == Only(w.log, u, machine);
    LatestOnly(w.log, u, machine);
    LatestOnly(Made(w), u, machine);
  }

  // ----- a run in which it does go wrong -----

  lemma ClaimMade(w: World, u: Name, machine: Name, device: Name)
    ensures var n := Next(w, Do(LeaseRuns.Request(u, machine, device)));
      && n.threads == w.threads + [[Entry(u, ModeChanged(machine, Some(device)))]]
      && n.log == w.log
      && Holder(ModeOf(n.runs.hub.modes, u).leases, machine) == Some(device)
  {
    NewsAppend(w.runs, LeaseRuns.Request(u, machine, device));
  }

  /** Two devices claim a machine, and the second claim is published first: in the
      end the browsers name the first device, the hub obeys the second. */
  lemma SwappedClaimsAreReached(w0: World, w1: World, w2: World, w3: World, w4: World,
                                u: Name, machine: Name, first: Name, second: Name)
    requires first != second && w0 == Initial()
    requires w1 == Next(w0, Do(LeaseRuns.Request(u, machine, first)))
    requires w2 == Next(w1, Do(LeaseRuns.Request(u, machine, second)))
    requires w3 == Next(w2, Publish(1)) && w4 == Next(w3, Publish(0))
    ensures Enabled(w2, Publish(1)) && Enabled(w3, Publish(0)) && Settled(w4)
    ensures Holder(Fold(w4.log, u), machine) == Some(first)
    ensures Holder(ModeOf(w4.runs.hub.modes, u).leases, machine) == Some(second)
  {
    var a, b := Entry(u, ModeChanged(machine, Some(first))), Entry(u, ModeChanged(machine, Some(second)));
    ClaimMade(w0, u, machine, first);
    ClaimMade(w1, u, machine, second);
    assert w2.threads == [[a], [b]];
    assert [b][1..] == [] && [a][1..] == [];
    assert w3.threads == [[a], []] && w3.log == [b];
    assert w4.threads == [[], []] && w4.log == [b, a];
    assert Latest(w4.log, u, machine) == Some(Some(first));
    FoldIsLatest(w4.log, u, machine);
  }
}
