/**
 The migration applier: pending files in name order, each applied and recorded, restarted after any crash.

 A run is cut short by a budget of durable commits: whatever stops it (a killed process, a failing
 statement, a lost connection), what the next run finds is what was committed before.
 */
module Migrate {
  import opened Common
  import opened MigrationFile
  import opened Sorting

  datatype File = File(name: string, text: string)
  datatype Effect = Effect(name: string, version: string, sql: string)

  /** The recorded versions in insertion order, and every migration SQL that took effect, in order. */
  datatype Store = Store(recorded: seq<string>, effects: seq<Effect>)

  const EMPTY := Store([], [])

  function BeforeUnderscore(name: string): string {
    if name == "" || name[0] == '_' then "" else [name[0]] + BeforeUnderscore(name[1..])
  }

  function VersionOf(f: File): string {
    BeforeUnderscore(f.name)
  }

  predicate NameLe(a: string, b: string) {
    a == "" || (b != "" && (a[0] < b[0] || (a[0] == b[0] && NameLe(a[1..], b[1..]))))
  }

  function ByName(): (File, File) -> bool {
    (f: File, g: File) => NameLe(f.name, g.name)
  }

  /** What the applier reads from a file; `up` is None when it has no up marker. */
  datatype Migration = Migration(name: string, version: string, up: Option<Up>)

  function Read(f: File): Migration {
    Migration(f.name, VersionOf(f), Parse(f.text))
  }

  function ReadAll(files: seq<File>): seq<Migration> {
    if files == [] then [] else [Read(files[0])] + ReadAll(files[1..])
  }

  function Pending(ms: seq<Migration>, recorded: seq<string>): seq<Migration> {
    if ms == [] then []
    else (if ms[0].version in recorded then [] else [ms[0]]) + Pending(ms[1..], recorded)
  }

  datatype Run = Run(store: Store, completed: bool)

  /**
   One pending migration. A transactional one is one commit, effect and record together; the other kind
   is two. Recording a version twice violates the primary key. None is a run that stops here.
   */
  function ApplyOne(m: Migration, s: Store, budget: nat): (Store, Option<nat>) {
    match m.up
    case None => (s, None)
    case Some(Up(sql, inTxn)) =>
      var applied := s.effects + [Effect(m.name, m.version, sql)];
      var commits := if inTxn then 1 else 2;
      if m.version !in s.recorded && commits <= budget
      then (Store(s.recorded + [m.version], applied), Some(budget - commits))
      else (Store(s.recorded, if !inTxn && budget > 0 then applied else s.effects), None)
  }

  /** The apply loop. */
  function Apply(pending: seq<Migration>, s: Store, budget: nat): Run
    decreases |pending|
  {
    if pending == [] then Run(s, true)
    else
      var (t, left) := ApplyOne(pending[0], s, budget);
      if left.None? then Run(t, false) else Apply(pending[1..], t, left.value)
  }

  function Deploy(ms: seq<Migration>, s: Store, budget: nat): Run {
    Apply(Pending(ms, s.recorded), s, budget)
  }

  /** [f for f in files if version_of(f) not in applied] */
  method PendingFiles(files: seq<File>, recorded: seq<string>) returns (pending: seq<File>)
    ensures ReadAll(pending) == Pending(ReadAll(files), recorded)
  {
    pending := [];
    for i := |files| downto 0
      invariant ReadAll(pending) == Pending(ReadAll(files[i..]), recorded)
    {
      assert files[i..][1..] == files[i + 1..];
      if VersionOf(files[i]) !in recorded {
        pending := [files[i]] + pending;
      }
    }
  }

  class Database {
    var recorded: seq<string>
    var effects: seq<Effect>

    constructor ()
      ensures recorded == [] && effects == []
    {
      recorded, effects := [], [];
    }

    function Contents(): Store
      reads this
    {
      Store(recorded, effects)
    }

    /** What the applier needs of one file. */
    static method ReadFile(f: File) returns (m: Migration)
      ensures m == Read(f)
    {
      var up := ParseUp(f.text);
      m := Migration(f.name, VersionOf(f), up);
    }

    /** One pending file: `left` is how many commits the process still lives for, None that the run stops here. */
    method ApplyFile(f: File, budget: nat) returns (left: Option<nat>)
      modifies this
      ensures (Contents(), left) == ApplyOne(Read(f), old(Contents()), budget)
    {
      var m := ReadFile(f);
      var Migration(name, version, up) := m;
      if up.None? {
        return None;
      }
      if up.value.inTxn {
        if budget == 0 || version in recorded {
          return None;
        }
        effects, recorded := effects + [Effect(name, version, up.value.sql)], recorded + [version];
        return Some(budget - 1);
      }
      if budget == 0 {
        return None;
      }
      effects := effects + [Effect(name, version, up.value.sql)];
      if budget == 1 || version in recorded {
        return None;
      }
      recorded := recorded + [version];
      return Some(budget - 2);
    }

    /** main: `listed` is the directory in whatever order glob gives it; false is a run that stopped early. */
    method Migrate(listed: seq<File>, budget: nat) returns (completed: bool)
      modifies this
      ensures var run := Deploy(ReadAll(Sort(listed, ByName())), old(Contents()), budget);
        Contents() == run.store && completed == run.completed
    {
      var files := Sort(listed, ByName());
      var pending := PendingFiles(files, recorded);
      var left := budget;
      for i := 0 to |pending|
        invariant Apply(ReadAll(pending), old(Contents()), budget) == Apply(ReadAll(pending[i..]), Contents(), left)
      {
        assert pending[i..][1..] == pending[i + 1..];
        var next := ApplyFile(pending[i], left);
        if next.None? {
          return false;
        }
        left := next.value;
      }
      completed := true;
    }
  }
}
