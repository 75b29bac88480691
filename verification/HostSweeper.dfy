/** The sweeper among the handlers does what one sweep of the host does. */
module HostSweeper {
  import opened RuntimeHost
  import opened HostInterleaving
  import opened HostHandlers

  /** The chore was read off the record at `at`, and asks for something. */
  predicate DueChore(shards: map<ShardKey, Record>, c: Chore, at: nat) {
    && c.key in shards && c.epoch == shards[c.key].runtimeEpoch
    && c.action == SweepActionOf(shards[c.key], at) && c.action != Leave
  }

  ghost predicate DueChores(shards: map<ShardKey, Record>, todo: seq<Chore>, at: nat) {
    && (forall i | 0 <= i < |todo| :: DueChore(shards, todo[i], at))
    && (forall i, j | 0 <= i < j < |todo| :: todo[i].key != todo[j].key)
  }

  predicate HasChore(todo: seq<Chore>, key: ShardKey) {
    exists i | 0 <= i < |todo| :: todo[i].key == key
  }

  lemma HasChoreCons(c: Chore, rest: seq<Chore>, key: ShardKey)
    ensures HasChore([c] + rest, key) <==> c.key == key || HasChore(rest, key)
  {
    var todo := [c] + rest;
    assert todo[0] == c && forall i | 0 <= i < |rest| :: todo[i + 1] == rest[i];
    if HasChore(rest, key) {
      var i :| 0 <= i < |rest| && rest[i].key == key;
      assert todo[i + 1].key == key;
    }
  }

  /** The chores are for the listed shards that are due, and only for those. */
  lemma {:induction false} ChoresCover(s: System, order: seq<ShardKey>, key: ShardKey)
    ensures HasChore(ChoresOf(s, order), key) <==>
            key in order && key in s.shards && SweepActionOf(s.shards[key], s.now) != Leave
    decreases |order|
  {
    if order != [] {
      ChoresCover(s, order[1..], key);
      var rest := ChoresOf(s, order[1..]);
      if ChoresOf(s, order) != rest {
        HasChoreCons(ChoresOf(s, order)[0], rest, key);
      }
    }
  }

  lemma {:induction false} ChoresAreDue(s: System, order: seq<ShardKey>)
    requires forall i, j | 0 <= i < j < |order| :: order[i] != order[j]
    ensures DueChores(s.shards, ChoresOf(s, order), s.now)
    decreases |order|
  {
    if order != [] {
      ChoresAreDue(s, order[1..]);
      var rest := ChoresOf(s, order[1..]);
      ChoresCover(s, order[1..], order[0]);
      if ChoresOf(s, order) != rest {
        var all := ChoresOf(s, order);
        assert all == [all[0]] + rest && all[0].key == order[0];
        forall j | 0 < j < |all| ensures all[j].key != order[0] {
          assert all[j] == rest[j - 1];
        }
      }
    }
  }

  lemma SweeperSetsOut(cfg: Config, s: System, order: seq<ShardKey>)
    ensures Next(cfg, s, WakeSweeper(order)) ==
            if s.sweeper == Asleep && forall id | id in s.tasks :: !PastBarrier(s.tasks[id]) then
              s.(sweeper := Sweeping(ChoresOf(s, order)))
            else s
  {
    assert forall id | id in s.tasks :: HoldsBarrier(s.tasks[id]) == PastBarrier(s.tasks[id]);
  }

  /** One chore, with its VM operation if it has one, makes of its record what the sweep is to make of it. */
  lemma ChoreRuns(cfg: Config, s: System, c: Chore, rest: seq<Chore>, at: nat, vmOk: bool) returns (events: seq<Event>)
    requires s.sweeper == Sweeping([c] + rest) && DueChore(s.shards, c, at)
    ensures Run(cfg, s, events) ==
            s.(shards := s.shards[c.key := SweptRecord(s.shards[c.key], at, vmOk)], sweeper := Sweeping(rest))
  {
    assert ([c] + rest)[1..] == rest;
    var s1 := DoChore(s, c, rest);
    assert Next(cfg, s, SweepNext) == s1;
    if c.action.Idle? {
      events := [SweepNext];
      assert events[1..] == [];
    } else {
      assert s1.sweeper.Stopping?;
      events := [SweepNext, SweepFinish(vmOk)];
      assert events[1..] == [SweepFinish(vmOk)] && events[1..][1..] == [];
      assert Run(cfg, s1, events[1..]) == DoSweepFinish(s1, vmOk);
      assert DoSweepFinish(s1, vmOk).shards == s.shards[c.key := SweptRecord(s.shards[c.key], at, vmOk)];
    }
  }

  /** The records once the chores are done. */
  function AfterChores(shards: map<ShardKey, Record>, todo: seq<Chore>, at: nat, vmOk: ShardKey -> bool)
    : map<ShardKey, Record>
  {
    map key | key in shards ::
      if HasChore(todo, key) then SweptRecord(shards[key], at, vmOk(key)) else shards[key]
  }

  lemma {:induction false} ChoresRun(cfg: Config, s: System, todo: seq<Chore>, at: nat, vmOk: ShardKey -> bool)
    returns (events: seq<Event>)
    requires s.sweeper == Sweeping(todo) && DueChores(s.shards, todo, at)
    ensures Run(cfg, s, events) == s.(shards := AfterChores(s.shards, todo, at, vmOk), sweeper := Asleep)
    decreases |todo|
  {
    if todo == [] {
      events := [SweepNext];
      assert events[1..] == [];
      assert AfterChores(s.shards, todo, at, vmOk) == s.shards;
    } else {
      var c, rest := todo[0], todo[1..];
      assert todo == [c] + rest;
      assert DueChore(s.shards, todo[0], at);
      var first := ChoreRuns(cfg, s, c, rest, at, vmOk(c.key));
      var s1 := Run(cfg, s, first);
      forall i | 0 <= i < |rest| ensures DueChore(s1.shards, rest[i], at) {
        assert DueChore(s.shards, todo[i + 1], at);
      }
      forall i, j | 0 <= i < j < |rest| ensures rest[i].key != rest[j].key {
        assert todo[i + 1].key != todo[j + 1].key;
      }
      var others := ChoresRun(cfg, s1, rest, at, vmOk);
      OneMoreChore(s.shards, todo, at, vmOk);
      events := first + others;
      RunAppend(cfg, s, first, others);
    }
  }

  lemma OneMoreChore(shards: map<ShardKey, Record>, todo: seq<Chore>, at: nat, vmOk: ShardKey -> bool)
    requires todo != [] && DueChores(shards, todo, at)
    ensures var c := todo[0];
            AfterChores(shards[c.key := SweptRecord(shards[c.key], at, vmOk(c.key))], todo[1..], at, vmOk)
            == AfterChores(shards, todo, at, vmOk)
  {
    var c, rest := todo[0], todo[1..];
    assert DueChore(shards, todo[0], at);
    var before := shards[c.key := SweptRecord(shards[c.key], at, vmOk(c.key))];
    forall key | key in shards
      ensures AfterChores(before, rest, at, vmOk)[key] == AfterChores(shards, todo, at, vmOk)[key]
    {
      assert todo == [c] + rest;
      HasChoreCons(c, rest, key);
      assert forall i | 0 <= i < |rest| :: rest[i] == todo[i + 1];
    }
  }

  /**
   * Left alone among waiting requests and running calls, the sweeper takes every shard exactly where one sweep
   * of the host takes it, in whatever order it visits them and however their VMs behave.
   */
  lemma SweeperSweeps(cfg: Config, s: System, order: seq<ShardKey>, vmOk: ShardKey -> bool)
    returns (events: seq<Event>)
    requires s.sweeper == Asleep && forall id | id in s.tasks :: !PastBarrier(s.tasks[id])
    requires forall key :: key in order <==> key in s.shards
    requires forall i, j | 0 <= i < j < |order| :: order[i] != order[j]
    ensures Run(cfg, s, events) == s.(shards := Swept(s.shards, s.now, vmOk))
  {
    var todo := ChoresOf(s, order);
    ChoresAreDue(s, order);
    SweeperSetsOut(cfg, s, order);
    var s1 := Next(cfg, s, WakeSweeper(order));
    var rest := ChoresRun(cfg, s1, todo, s.now, vmOk);
    forall key | key in s.shards
      ensures AfterChores(s.shards, todo, s.now, vmOk)[key] == Swept(s.shards, s.now, vmOk)[key]
    {
      ChoresCover(s, order, key);
    }
    assert AfterChores(s.shards, todo, s.now, vmOk) == Swept(s.shards, s.now, vmOk);
    events := [WakeSweeper(order)] + rest;
    assert events[1..] == rest;
  }
}
