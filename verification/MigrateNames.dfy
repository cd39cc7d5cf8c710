/** What the applier makes of file names: the version, the order, and which files are pending. */
module MigrateNames {
  import opened Migrate
  import opened MigrateTheorems
  import opened MigrationFile
  import opened Sorting

  /** A version is its file's name up to the first underscore, or all of it. */
  lemma {:induction false} VersionExactly(name: string) returns (n: nat)
    ensures n <= |name| && BeforeUnderscore(name) == name[..n] && '_' !in name[..n]
    ensures n < |name| ==> name[n] == '_'
  {
    n := 0;
    if name != "" && name[0] != '_' {
      n := VersionExactly(name[1..]);
      assert name[..n + 1] == [name[0]] + name[1..][..n];
      n := n + 1;
    }
  }

  /** The first difference of two names, where the smaller one has the smaller character. */
  predicate SmallerAt(a: string, b: string, i: nat) {
    i < |a| && i < |b| && a[..i] == b[..i] && a[i] < b[i]
  }

  lemma SmallerRest(a: string, b: string, i: nat)
    requires a != "" && b != "" && a[0] == b[0]
    ensures SmallerAt(a, b, i + 1) <==> SmallerAt(a[1..], b[1..], i)
  {
    if i + 1 < |a| && i + 1 < |b| {
      assert a[..i + 1] == [a[0]] + a[1..][..i] && b[..i + 1] == [b[0]] + b[1..][..i];
      assert a[..i + 1][1..] == a[1..][..i] && b[..i + 1][1..] == b[1..][..i];
    }
  }

  lemma PrefixRest(a: string, b: string)
    requires a != "" && b != "" && a[0] == b[0]
    ensures a <= b <==> a[1..] <= b[1..]
  {
    assert a == [a[0]] + a[1..] && b == [b[0]] + b[1..];
    if a[1..] <= b[1..] {
      assert b[1..][..|a| - 1] == a[1..];
      assert b[..|a|] == [b[0]] + b[1..][..|a| - 1];
    }
    if a <= b {
      assert b[1..][..|a| - 1] == b[..|a|][1..];
    }
  }

  /** Names are ordered like a dictionary's: by the first difference, a prefix before what extends it. */
  lemma {:induction false} OrderExactly(a: string, b: string)
    ensures NameLe(a, b) <==> a <= b || exists i: nat :: SmallerAt(a, b, i)
  {
    if a != "" && b != "" && a[0] == b[0] {
      OrderExactly(a[1..], b[1..]);
      if exists i: nat :: SmallerAt(a, b, i) {
        var i: nat :| SmallerAt(a, b, i);
        SmallerRest(a, b, i - 1);
      }
      if exists i: nat :: SmallerAt(a[1..], b[1..], i) {
        var i: nat :| SmallerAt(a[1..], b[1..], i);
        SmallerRest(a, b, i);
        assert SmallerAt(a, b, i + 1);
      }
      PrefixRest(a, b);
    } else if a != "" && b != "" && a[0] < b[0] {
      assert a[..0] == b[..0] && SmallerAt(a, b, 0);
    } else if a != "" && b != "" {
      forall i | 0 < i < |a| && i < |b| ensures a[..i] != b[..i] {
        assert a[..i][0] == a[0] && b[..i][0] == b[0];
      }
    }
  }

  /** However the directory is listed: all its files, in the order of their names, each read as itself. */
  lemma FilesInOrder(listed: seq<File>)
    ensures var files := Sort(listed, ByName());
      var read := ReadAll(files);
      && multiset(files) == multiset(listed) && |read| == |files|
      && (forall i, j :: 0 <= i < j < |files| ==>
            files[i].name <= files[j].name || exists n: nat :: SmallerAt(files[i].name, files[j].name, n))
      && forall i :: 0 <= i < |files| ==>
           && read[i].name == files[i].name && read[i].up == Parse(files[i].text)
           && read[i].version == BeforeUnderscore(files[i].name)
  {
    var files := Sort(listed, ByName());
    ByNameTotal();
    SortSorts(listed, ByName());
    forall i, j | 0 <= i < j < |files|
      ensures files[i].name <= files[j].name || exists n: nat :: SmallerAt(files[i].name, files[j].name, n) {
      assert ByName()(files[i], files[j]);
      OrderExactly(files[i].name, files[j].name);
    }
    ReadEach(files);
  }

  lemma {:induction false} ReadEach(files: seq<File>)
    ensures |ReadAll(files)| == |files|
    ensures forall i :: 0 <= i < |files| ==>
      && ReadAll(files)[i].name == files[i].name && ReadAll(files)[i].up == Parse(files[i].text)
      && ReadAll(files)[i].version == BeforeUnderscore(files[i].name)
  {
    if files != [] {
      ReadEach(files[1..]);
      assert forall i :: 0 <= i < |files| - 1 ==> files[1..][i] == files[i + 1];
    }
  }

  /** The pending files are those whose version is not recorded, all of them, in order. */
  lemma {:induction false} PendingExactly(ms: seq<Migration>, recorded: seq<string>) returns (at: seq<nat>)
    ensures var pending := Pending(ms, recorded);
      && |at| == |pending| && (forall i, j :: 0 <= i < j < |at| ==> at[i] < at[j])
      && (forall k: nat :: k in at <==> k < |ms| && ms[k].version !in recorded)
      && forall i :: 0 <= i < |at| ==> at[i] < |ms| && pending[i] == ms[at[i]]
  {
    at := [];
    if ms != [] {
      var n := |ms| - 1;
      at := PendingExactly(ms[..n], recorded);
      PendingSnoc(ms[..n], ms[n], recorded);
      assert ms == ms[..n] + [ms[n]];
      if ms[n].version !in recorded {
        at := at + [n];
      }
    }
  }

  lemma {:induction false} PendingSnoc(ms: seq<Migration>, m: Migration, recorded: seq<string>)
    ensures Pending(ms + [m], recorded) == Pending(ms, recorded) + if m.version in recorded then [] else [m]
  {
    if ms == [] {
      assert ms + [m] == [m] && [m][1..] == [];
    } else {
      assert (ms + [m])[1..] == ms[1..] + [m];
      PendingSnoc(ms[1..], m, recorded);
    }
  }
}
