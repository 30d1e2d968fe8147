/** The constants that a fiber has evaluated, and those it is in the middle of: each initialiser
    completes at most once, whatever reads and exits lie between. */
module ConstTable {

  /** A constant is known by its initialiser. */
  type Key = nat

  /** `value` counts once the entry is ready; until then the initialiser runs. */
  datatype Entry = Entry(init: Key, value: int, ready: bool)

  type Table = seq<Entry>

  ghost predicate Holds(t: Table, k: Key) {
    exists i :: 0 <= i < |t| && t[i].init == k
  }

  ghost predicate Distinct(t: Table) {
    forall i, j :: 0 <= i < j < |t| ==> t[i].init != t[j].init
  }

  // ---------- what the operations do to the table ----------

  function IndexOf(t: Table, k: Key): (i: int)
    ensures -1 <= i < |t| && (i >= 0 ==> t[i].init == k && forall j :: 0 <= j < i ==> t[j].init != k)
    ensures i < 0 <==> forall j :: 0 <= j < |t| ==> t[j].init != k
  {
    if t == [] then -1
    else if t[0].init == k then 0
    else
      assert forall j :: 0 < j < |t| ==> t[j] == t[1..][j - 1];
      var i := IndexOf(t[1..], k);
      if i < 0 then -1 else i + 1
  }

  datatype Answer = Known(value: int) | DependsOnItself | Begins

  function AnswerTo(t: Table, k: Key): Answer {
    var i := IndexOf(t, k);
    if i < 0 then Begins else if t[i].ready then Known(t[i].value) else DependsOnItself
  }

  function Asked(t: Table, k: Key): Table {
    if AnswerTo(t, k).Begins? then t + [Entry(k, 0, false)] else t
  }

  function Settled(t: Table, k: Key, v: int): Table {
    var i := IndexOf(t, k);
    if i < 0 then t else t[i := Entry(k, v, true)]
  }

  /** The last entry takes the place of the one that goes. */
  function Abandoned(t: Table, k: Key): Table {
    var i := IndexOf(t, k);
    if i < 0 then t else t[i := t[|t| - 1]][..|t| - 1]
  }

  // ---------- the fiber's table ----------

  class Fiber {
    var consts: array<Entry>
    var n: nat

    ghost predicate Valid()
      reads this
    {
      n <= consts.Length
    }

    ghost function Contents(): Table
      reads this, consts
      requires Valid()
    {
      consts[..n]
    }

    constructor ()
      ensures Valid() && Contents() == [] && fresh(consts)
    {
      consts := new Entry[0];
      n := 0;
    }

    method Find(k: Key) returns (i: int)
      requires Valid()
      ensures i == IndexOf(Contents(), k)
    {
      i := 0;
      while i < n
        invariant 0 <= i <= n && forall j :: 0 <= j < i ==> consts[j].init != k
      {
        if consts[i].init == k {
          FirstOf(Contents(), k, i);
          return;
        }
        i := i + 1;
      }
      i := -1;
      assert forall j :: 0 <= j < n ==> Contents()[j] == consts[j];
    }

    /** The start of a read: the value if it is known, a panic if the initialiser is running, and
        otherwise an entry for the run that begins. */
    method Ask(k: Key) returns (a: Answer)
      requires Valid()
      modifies this, consts
      ensures Valid() && a == AnswerTo(old(Contents()), k) && Contents() == Asked(old(Contents()), k)
      ensures consts == old(consts) || fresh(consts)
    {
      var i := Find(k);
      if i >= 0 {
        return if consts[i].ready then Known(consts[i].value) else DependsOnItself;
      }
      if n == consts.Length { Grow(); }
      consts[n] := Entry(k, 0, false);
      n := n + 1;
      a := Begins;
    }

    method Grow()
      requires Valid()
      modifies this
      ensures Valid() && fresh(consts) && n == old(n) && Contents() == old(Contents())
      ensures consts.Length == if old(consts.Length) > 0 then 2 * old(consts.Length) else 4
    {
      var cap := if consts.Length > 0 then 2 * consts.Length else 4;
      var was := consts;
      var buf := new Entry[cap](i requires 0 <= i < cap reads was => if i < was.Length then was[i] else Entry(0, 0, false));
      consts := buf;
    }

    /** The initialiser has come back with `v`. The table is searched again: it may have moved. */
    method Settle(k: Key, v: int)
      requires Valid()
      modifies consts
      ensures Valid() && Contents() == Settled(old(Contents()), k, v)
    {
      var i := Find(k);
      if i >= 0 { consts[i] := Entry(consts[i].init, v, true); }
    }

    /** An exit past the initialiser: the constant is unevaluated again. */
    method Abandon(k: Key)
      requires Valid()
      modifies this`n, consts
      ensures Valid() && Contents() == Abandoned(old(Contents()), k)
    {
      var i := Find(k);
      if i >= 0 {
        n := n - 1;
        consts[i] := consts[n];
      }
    }
  }

  lemma FirstOf(t: Table, k: Key, i: nat)
    requires i < |t| && t[i].init == k && forall j :: 0 <= j < i ==> t[j].init != k
    ensures IndexOf(t, k) == i
  {
  }

  // ---------- whole runs ----------

  /** The table, the initialisers that are running, the innermost last, and every completion
      there has been, in order. */
  datatype State = State(table: Table, running: seq<Key>, log: seq<(Key, int)>)

  /** What code that reads constants can do: ask for one; come back from the innermost
      initialiser with a value; leave it by an exit. */
  datatype Event = Ask(k: Key) | Return(v: int) | Exit

  ghost predicate Enabled(s: State, e: Event) {
    e.Ask? || s.running != []
  }

  function Step(s: State, e: Event): State
    requires e.Ask? || s.running != []
  {
    match e
    case Ask(k) =>
      State(Asked(s.table, k), if AnswerTo(s.table, k).Begins? then s.running + [k] else s.running, s.log)
    case Return(v) =>
      var k := s.running[|s.running| - 1];
      State(Settled(s.table, k, v), s.running[..|s.running| - 1], s.log + [(k, v)])
    case Exit =>
      State(Abandoned(s.table, s.running[|s.running| - 1]), s.running[..|s.running| - 1], s.log)
  }

  ghost predicate IsRunning(s: State, k: Key) {
    exists i :: 0 <= i < |s.running| && s.running[i] == k
  }

  ghost predicate IsKnown(t: Table, k: Key, v: int) {
    Entry(k, v, true) in t
  }

  /** An entry is not ready exactly while its initialiser runs; the ready ones are exactly the
      completions; and no initialiser runs or completes twice. */
  ghost predicate Inv(s: State) {
    && Distinct(s.table)
    && (forall k: Key :: IsRunning(s, k) <==> exists v :: Entry(k, v, false) in s.table)
    && (forall k: Key, v :: IsKnown(s.table, k, v) <==> (k, v) in s.log)
    && (forall i, j :: 0 <= i < j < |s.running| ==> s.running[i] != s.running[j])
    && (forall i, j :: 0 <= i < j < |s.log| ==> s.log[i].0 != s.log[j].0)
  }

  lemma InitInv()
    ensures Inv(State([], [], []))
  {
  }

  /** One entry at most has the key. */
  lemma OneEntry(t: Table, k: Key, c: Entry)
    requires Distinct(t) && c in t && c.init == k
    ensures IndexOf(t, k) >= 0 && t[IndexOf(t, k)] == c
  {
    var i :| 0 <= i < |t| && t[i] == c;
    var j := IndexOf(t, k);
    assert t[i].init == k && j >= 0 && t[j].init == k;
  }

  /** What a read is answered, by what is running and what has completed. */
  lemma Answers(s: State, k: Key)
    requires Inv(s)
    ensures AnswerTo(s.table, k).DependsOnItself? <==> IsRunning(s, k)
    ensures forall v :: AnswerTo(s.table, k) == Known(v) <==> (k, v) in s.log
    ensures AnswerTo(s.table, k).Begins? ==> IndexOf(s.table, k) < 0
  {
    var i := IndexOf(s.table, k);
    if i >= 0 {
      var c := s.table[i];
      assert c in s.table;
      if !c.ready { assert Entry(k, c.value, false) in s.table; }
      if c.ready { assert IsKnown(s.table, k, c.value); }
    }
    if IsRunning(s, k) {
      var v :| Entry(k, v, false) in s.table;
      OneEntry(s.table, k, Entry(k, v, false));
    }
    forall v ensures AnswerTo(s.table, k) == Known(v) <==> (k, v) in s.log {
      if (k, v) in s.log {
        assert IsKnown(s.table, k, v);
        OneEntry(s.table, k, Entry(k, v, true));
      }
    }
  }

  lemma AskInv(s: State, k: Key)
    requires Inv(s)
    ensures Inv(Step(s, Ask(k)))
  {
    Answers(s, k);
    if AnswerTo(s.table, k).Begins? {
      var s', e := Step(s, Ask(k)), Entry(k, 0, false);
      forall c: Entry ensures c in s'.table <==> c in s.table || c == e { }
      forall x: Key ensures IsRunning(s', x) <==> exists v :: Entry(x, v, false) in s'.table {
        if x == k {
          assert s'.running[|s.running|] == k && e in s'.table;
        } else {
          assert IsRunning(s', x) <==> IsRunning(s, x) by {
            if IsRunning(s, x) { var i :| 0 <= i < |s.running| && s.running[i] == x; assert s'.running[i] == x; }
          }
          if v :| Entry(x, v, false) in s.table { assert Entry(x, v, false) in s'.table; }
        }
      }
      forall i | 0 <= i < |s.running| ensures s.running[i] != k { assert IsRunning(s, s.running[i]); }
      forall x: Key, v ensures IsKnown(s'.table, x, v) <==> (x, v) in s'.log { assert IsKnown(s'.table, x, v) <==> IsKnown(s.table, x, v); }
    }
  }

  /** The innermost initialiser, and where its entry is. */
  lemma Innermost(s: State) returns (k: Key, i: nat)
    requires Inv(s) && s.running != []
    ensures k == s.running[|s.running| - 1] && i == IndexOf(s.table, k) && i < |s.table| && !s.table[i].ready && s.table[i].init == k
    ensures forall v :: (k, v) !in s.log
  {
    k := s.running[|s.running| - 1];
    assert IsRunning(s, k);
    var v :| Entry(k, v, false) in s.table;
    OneEntry(s.table, k, Entry(k, v, false));
    i := IndexOf(s.table, k);
    forall u ensures (k, u) !in s.log {
      if (k, u) in s.log {
        assert IsKnown(s.table, k, u);
        OneEntry(s.table, k, Entry(k, u, true));
      }
    }
  }

  /** Taking the innermost initialiser off leaves the others running. */
  lemma StillRunning(s: State, s': State, x: Key)
    requires Inv(s) && s.running != [] && s'.running == s.running[..|s.running| - 1]
    ensures IsRunning(s', x) <==> IsRunning(s, x) && x != s.running[|s.running| - 1]
  {
    if IsRunning(s, x) && x != s.running[|s.running| - 1] {
      var i :| 0 <= i < |s.running| && s.running[i] == x;
      assert s'.running[i] == x;
    }
  }

  /** The other entries are as they were when the entry of the innermost initialiser is replaced. */
  lemma OthersBeside(t: Table, i: nat, e: Entry, c: Entry)
    requires i < |t| && e.init == t[i].init && c.init != e.init
    ensures c in t[i := e] <==> c in t
  {
    var t' := t[i := e];
    if c in t {
      var j :| 0 <= j < |t| && t[j] == c;
      assert t'[j] == c;
    }
  }

  /** And when the last entry takes its place. */
  lemma OthersMoved(t: Table, i: nat, c: Entry)
    requires i < |t| && c.init != t[i].init
    ensures c in t[i := t[|t| - 1]][..|t| - 1] <==> c in t
  {
    var last := |t| - 1;
    var t' := t[i := t[last]][..last];
    if c in t {
      var j :| 0 <= j < |t| && t[j] == c;
      if j < last { assert t'[j] == c; } else { assert t'[i] == c; }
    }
  }

  lemma NotLogged(log: seq<(Key, int)>, k: Key)
    requires forall v :: (k, v) !in log
    ensures forall j :: 0 <= j < |log| ==> log[j].0 != k
  {
    forall j | 0 <= j < |log| ensures log[j].0 != k {
      var (x, v) := log[j];
      assert log[j] == (x, v) && (x, v) in log;
    }
  }

  lemma ReturnInv(s: State, v: int)
    requires Inv(s) && s.running != []
    ensures Inv(Step(s, Return(v)))
  {
    var k, i := Innermost(s);
    var s', e := Step(s, Return(v)), Entry(k, v, true);
    assert s'.table == s.table[i := e] && s'.table[i] == e;
    forall c: Entry | c in s'.table ensures c.init == k ==> c == e {
      var j :| 0 <= j < |s'.table| && s'.table[j] == c;
      if j != i { assert s.table[j].init != s.table[i].init; }
    }
    forall x: Key ensures IsRunning(s', x) <==> exists u :: Entry(x, u, false) in s'.table {
      StillRunning(s, s', x);
      forall u | x != k ensures Entry(x, u, false) in s'.table <==> Entry(x, u, false) in s.table {
        OthersBeside(s.table, i, e, Entry(x, u, false));
      }
    }
    forall x: Key, u ensures IsKnown(s'.table, x, u) <==> (x, u) in s'.log {
      if x != k { OthersBeside(s.table, i, e, Entry(x, u, true)); }
      assert (x, u) in s'.log <==> (x, u) in s.log || (x, u) == (k, v);
      assert IsKnown(s.table, x, u) <==> (x, u) in s.log;
    }
    NotLogged(s.log, k);
  }

  lemma ExitInv(s: State)
    requires Inv(s) && s.running != []
    ensures Inv(Step(s, Exit))
  {
    var k, i := Innermost(s);
    var s', last := Step(s, Exit), |s.table| - 1;
    assert s'.table == s.table[i := s.table[last]][..last];
    forall c: Entry | c in s'.table ensures c.init != k {
      var j :| 0 <= j < |s'.table| && s'.table[j] == c;
      assert c == if j == i then s.table[last] else s.table[j];
    }
    forall x: Key ensures IsRunning(s', x) <==> exists u :: Entry(x, u, false) in s'.table {
      StillRunning(s, s', x);
      forall u | x != k ensures Entry(x, u, false) in s'.table <==> Entry(x, u, false) in s.table {
        OthersMoved(s.table, i, Entry(x, u, false));
      }
    }
    forall x: Key, u ensures IsKnown(s'.table, x, u) <==> (x, u) in s'.log {
      if x != k { OthersMoved(s.table, i, Entry(x, u, true)); }
      assert IsKnown(s.table, x, u) <==> (x, u) in s.log;
    }
  }

  lemma StepInv(s: State, e: Event)
    requires Inv(s) && Enabled(s, e)
    ensures Inv(Step(s, e)) && s.log <= Step(s, e).log
  {
    match e
    case Ask(k) => AskInv(s, k);
    case Return(v) => ReturnInv(s, v);
    case Exit => ExitInv(s);
  }

  ghost predicate Reaches(s: State, run: seq<Event>, s': State)
    decreases |run|
  {
    if run == [] then s' == s else Enabled(s, run[0]) && Reaches(Step(s, run[0]), run[1..], s')
  }

  /** Over any nesting of reads, completions and exits: an initialiser completes at most once, and
      a constant that is known stays known with the same value. */
  lemma {:induction false} AtMostOnce(s: State, run: seq<Event>, s': State)
    requires Inv(s) && Reaches(s, run, s')
    ensures Inv(s') && s.log <= s'.log
    ensures forall i, j :: 0 <= i < j < |s'.log| ==> s'.log[i].0 != s'.log[j].0
    ensures forall k: Key, v :: AnswerTo(s.table, k) == Known(v) ==> AnswerTo(s'.table, k) == Known(v)
    decreases |run|
  {
    if run != [] {
      StepInv(s, run[0]);
      AtMostOnce(Step(s, run[0]), run[1..], s');
    }
    forall k: Key, v | AnswerTo(s.table, k) == Known(v) ensures AnswerTo(s'.table, k) == Known(v) {
      Answers(s, k);
      Answers(s', k);
      var i :| 0 <= i < |s.log| && s.log[i] == (k, v);
      assert s'.log[i] == (k, v);
    }
  }

  /** The same for a fiber's whole life, which begins with an empty table; and what a read is
      answered at any time is what the record of it says. */
  lemma FiberLife(run: seq<Event>, s: State, k: Key)
    requires Reaches(State([], [], []), run, s)
    ensures Inv(s) && forall i, j :: 0 <= i < j < |s.log| ==> s.log[i].0 != s.log[j].0
    ensures AnswerTo(s.table, k).DependsOnItself? <==> IsRunning(s, k)
    ensures forall v :: AnswerTo(s.table, k) == Known(v) <==> (k, v) in s.log
  {
    InitInv();
    AtMostOnce(State([], [], []), run, s);
    Answers(s, k);
  }

  /** `k` completed with `v` between the two states. */
  predicate Completed(s: State, s': State, k: Key, v: int) {
    |s.log| <= |s'.log| && (k, v) in s'.log[|s.log|..]
  }

  /** An exit past an initialiser: what it read that completed meanwhile is known; every other read
      is answered as before the constant was asked for, and so is a read of the constant itself. */
  lemma ExitUndoes(s: State, k: Key, run: seq<Event>, s1: State)
    requires Inv(s) && AnswerTo(s.table, k).Begins? && Reaches(Step(s, Ask(k)), run, s1)
    requires s1.running == s.running + [k]
    ensures var s' := Step(s1, Exit);
      && s'.running == s.running && AnswerTo(s'.table, k).Begins?
      && (forall x: Key, v :: Completed(s, s', x, v) ==> AnswerTo(s'.table, x) == Known(v))
      && (forall x: Key :: (forall v :: !Completed(s, s', x, v)) ==> AnswerTo(s'.table, x) == AnswerTo(s.table, x))
  {
    AskInv(s, k);
    AtMostOnce(Step(s, Ask(k)), run, s1);
    ExitInv(s1);
    var s' := Step(s1, Exit);
    assert s'.running == s.running;
    NewlyKnown(s, s');
    forall x: Key | forall v :: !Completed(s, s', x, v) ensures AnswerTo(s'.table, x) == AnswerTo(s.table, x) {
      SameAnswer(s, s', x);
    }
    forall v ensures !Completed(s, s', k, v) { NotCompleted(s, s1, k, v); }
  }

  lemma NewlyKnown(s: State, s': State)
    requires Inv(s')
    ensures forall x: Key, v :: Completed(s, s', x, v) ==> AnswerTo(s'.table, x) == Known(v)
  {
    forall x: Key, v | Completed(s, s', x, v) ensures AnswerTo(s'.table, x) == Known(v) {
      assert (x, v) in s'.log;
      Answers(s', x);
    }
  }

  /** What is running has not completed. */
  lemma NotCompleted(s: State, s1: State, k: Key, v: int)
    requires Inv(s1) && s1.running != [] && s1.running[|s1.running| - 1] == k
    ensures !Completed(s, s1, k, v)
  {
    var top, at := Innermost(s1);
  }

  lemma SameAnswer(s: State, s': State, x: Key)
    requires Inv(s) && Inv(s') && s'.running == s.running && s.log <= s'.log && forall v :: !Completed(s, s', x, v)
    ensures AnswerTo(s'.table, x) == AnswerTo(s.table, x)
  {
    Answers(s, x);
    Answers(s', x);
    assert IsRunning(s', x) <==> IsRunning(s, x);
    assert s'.log == s.log + s'.log[|s.log|..];
    if AnswerTo(s.table, x).Known? { assert AnswerTo(s'.table, x) == Known(AnswerTo(s.table, x).value); }
    if AnswerTo(s'.table, x).Known? {
      var v := AnswerTo(s'.table, x).value;
      assert (x, v) in s'.log && !Completed(s, s', x, v);
      assert AnswerTo(s.table, x) == Known(v);
    }
  }
}
