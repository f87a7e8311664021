/**
 * The module-level snapshot table `files` of src/loader.ts, as a value, and
 * the two operations on it: eager loading of a batch of project files
 * (`loadFiles`) and the language-service host's lazy `getScriptSnapshot`.
 * The disk is a map from path to contents: membership stands for
 * `fs.existsSync`, lookup for `fs.readFileSync`.
 */
module Snapshots {
  import opened Wrappers

  /** A script file known to the language service: its text and its version. */
  datatype TSFile = TSFile(text: Option<string>, version: nat)

  /**
   * A JavaScript `Map<string, TSFile>`: its keys in insertion order (the
   * order `keys()` yields them) and its entries.
   */
  datatype Table = Table(order: seq<string>, entries: map<string, TSFile>)

  const EMPTY_TABLE := Table([], map[])

  predicate Distinct(s: seq<string>)
  {
    forall i, j :: 0 <= i < j < |s| ==> s[i] != s[j]
  }

  /** The iteration order lists every key exactly once. */
  ghost predicate WellFormed(t: Table)
  {
    Distinct(t.order) && forall k :: k in t.order <==> k in t.entries
  }

  /** A snapshot entry as the loader creates it: text read from disk, version 0. */
  function FreshEntry(text: string): TSFile
  {
    TSFile(Some(text), 0)
  }

  /**
   * The invariant every reachable table keeps: well formed, and every entry
   * holds text and still carries version 0 (nothing ever bumps a version).
   */
  ghost predicate Consistent(t: Table)
  {
    WellFormed(t) &&
    forall k :: k in t.entries ==> t.entries[k].text.Some? && t.entries[k].version == 0
  }

  /**
   * `Map.set`: the key now maps to the value and no other key changes; a
   * new key is appended to the iteration order, an existing one keeps its place.
   */
  function Put(t: Table, key: string, v: TSFile): (r: Table)
    ensures key in r.entries && r.entries[key] == v
    ensures forall k :: k != key ==> (k in r.entries <==> k in t.entries)
    ensures forall k :: k != key && k in t.entries ==> r.entries[k] == t.entries[k]
    ensures t.order <= r.order
    ensures WellFormed(t) ==> WellFormed(r)
    ensures WellFormed(t) && key in t.entries ==> r.order == t.order
  {
    Table(if key in t.entries then t.order else t.order + [key], t.entries[key := v])
  }

  /** What `loadFiles` leaves behind: the table, and the path whose read threw, if any. */
  datatype LoadResult = LoadResult(table: Table, failed: Option<string>)

  /**
   * `loadFiles(paths)`: each path in turn is normalized and stored with the
   * disk's text and version 0, overwriting an entry already there. The first
   * normalized path that is not on disk makes `readFileSync` throw: the batch
   * stops there and the entries stored before it stay in the table.
   */
  function LoadAll(t: Table, paths: seq<string>, normalize: string -> string, disk: map<string, string>): LoadResult
    decreases |paths|
  {
    if paths == [] then LoadResult(t, None)
    else
      var key := normalize(paths[0]);
      if key !in disk then LoadResult(t, Some(key))
      else LoadAll(Put(t, key, FreshEntry(disk[key])), paths[1..], normalize, disk)
  }

  /** Every path of the batch normalizes to a file on disk. */
  predicate AllOnDisk(paths: seq<string>, normalize: string -> string, disk: map<string, string>)
  {
    forall i :: 0 <= i < |paths| ==> normalize(paths[i]) in disk
  }

  /** The keys a batch writes. */
  function Targets(paths: seq<string>, normalize: string -> string): set<string>
  {
    set i | 0 <= i < |paths| :: normalize(paths[i])
  }

  /** Loading keeps the table well formed and consistent, and never reorders existing keys. */
  lemma {:induction false} LoadAllInvariant(t: Table, paths: seq<string>, normalize: string -> string, disk: map<string, string>)
    ensures var r := LoadAll(t, paths, normalize, disk).table;
      (WellFormed(t) ==> WellFormed(r)) && (Consistent(t) ==> Consistent(r)) && t.order <= r.order
    decreases |paths|
  {
    if paths != [] {
      var key := normalize(paths[0]);
      if key in disk {
        var t' := Put(t, key, FreshEntry(disk[key]));
        LoadAllInvariant(t', paths[1..], normalize, disk);
      }
    }
  }

  /**
   * The batch fails exactly when some path is not on disk; it then names the
   * first such path and leaves the table as loading the paths before it would.
   */
  lemma LoadAllFailure(t: Table, paths: seq<string>, normalize: string -> string, disk: map<string, string>)
    ensures var r := LoadAll(t, paths, normalize, disk);
      (r.failed.None? <==> AllOnDisk(paths, normalize, disk)) &&
      (r.failed.Some? ==>
         exists i :: 0 <= i < |paths| && r.failed.value == normalize(paths[i]) &&
           r.failed.value !in disk && AllOnDisk(paths[..i], normalize, disk) &&
           r.table == LoadAll(t, paths[..i], normalize, disk).table)
  {
    var r := LoadAll(t, paths, normalize, disk);
    LoadAllFirstMissing(t, paths, normalize, disk);
    if r.failed.Some? {
      var i :| 0 <= i < |paths| && r.failed.value == normalize(paths[i]) &&
        r.failed.value !in disk && AllOnDisk(paths[..i], normalize, disk);
      LoadAllStopsAt(t, paths, normalize, disk, i);
    }
  }

  /** The failure a batch reports is the first path of it that is not on disk. */
  lemma {:induction false} LoadAllFirstMissing(t: Table, paths: seq<string>, normalize: string -> string, disk: map<string, string>)
    ensures var r := LoadAll(t, paths, normalize, disk);
      (r.failed.None? <==> AllOnDisk(paths, normalize, disk)) &&
      (r.failed.Some? ==>
         exists i :: 0 <= i < |paths| && r.failed.value == normalize(paths[i]) &&
           r.failed.value !in disk && AllOnDisk(paths[..i], normalize, disk))
    decreases |paths|
  {
    if paths != [] {
      var key := normalize(paths[0]);
      if key !in disk {
        assert paths[..0] == [];
      } else {
        var t' := Put(t, key, FreshEntry(disk[key]));
        var rest := paths[1..];
        LoadAllFirstMissing(t', rest, normalize, disk);
        var r := LoadAll(t', rest, normalize, disk);
        assert LoadAll(t, paths, normalize, disk) == r;
        if r.failed.Some? {
          var i :| 0 <= i < |rest| && r.failed.value == normalize(rest[i]) &&
            r.failed.value !in disk && AllOnDisk(rest[..i], normalize, disk);
          assert paths[i + 1] == rest[i];
          assert paths[..i + 1] == [paths[0]] + rest[..i];
        } else {
          assert forall j :: 1 <= j < |paths| ==> paths[j] == rest[j - 1];
        }
      }
    }
  }

  /**
   * A batch whose first missing path is at position `i` stops there, keeping
   * exactly what the paths before `i` stored (the throw of `readFileSync`
   * does not undo earlier `files.set` calls).
   */
  lemma {:induction false} LoadAllStopsAt(t: Table, paths: seq<string>, normalize: string -> string, disk: map<string, string>, i: nat)
    requires i < |paths| && normalize(paths[i]) !in disk && AllOnDisk(paths[..i], normalize, disk)
    ensures LoadAll(t, paths, normalize, disk) == LoadResult(LoadAll(t, paths[..i], normalize, disk).table, Some(normalize(paths[i])))
    decreases i
  {
    if i == 0 {
      assert paths[..0] == [];
    } else {
      var key := normalize(paths[0]);
      assert paths[..i][0] == paths[0];
      assert key in disk;
      var t' := Put(t, key, FreshEntry(disk[key]));
      var rest := paths[1..];
      assert rest[i - 1] == paths[i];
      var before := rest[..i - 1];
      assert before == paths[..i][1..];
      assert AllOnDisk(before, normalize, disk) by {
        forall j | 0 <= j < |before| ensures normalize(before[j]) in disk {
          assert before[j] == paths[..i][j + 1];
        }
      }
      LoadAllStopsAt(t', rest, normalize, disk, i - 1);
      assert LoadAll(t, paths[..i], normalize, disk) == LoadAll(t', rest[..i - 1], normalize, disk);
    }
  }

  /** A key the batch does not write keeps its presence and its entry. */
  lemma {:induction false} LoadAllFrame(t: Table, paths: seq<string>, normalize: string -> string, disk: map<string, string>, k: string)
    requires k !in Targets(paths, normalize)
    ensures var r := LoadAll(t, paths, normalize, disk).table;
      (k in r.entries <==> k in t.entries) && (k in t.entries ==> r.entries[k] == t.entries[k])
    decreases |paths|
  {
    if paths != [] {
      var key := normalize(paths[0]);
      if key in disk {
        assert key in Targets(paths, normalize);
        var t' := Put(t, key, FreshEntry(disk[key]));
        assert Targets(paths[1..], normalize) <= Targets(paths, normalize) by {
          forall x | x in Targets(paths[1..], normalize) ensures x in Targets(paths, normalize) {
            var i :| 0 <= i < |paths[1..]| && x == normalize(paths[1..][i]);
            assert paths[i + 1] == paths[1..][i];
          }
        }
        LoadAllFrame(t', paths[1..], normalize, disk, k);
      }
    }
  }

  /** An entry that already holds the disk's text and version 0 is left as it is. */
  lemma {:induction false} LoadAllKeepsFresh(t: Table, paths: seq<string>, normalize: string -> string, disk: map<string, string>, k: string)
    requires k in t.entries && k in disk && t.entries[k] == FreshEntry(disk[k])
    ensures var r := LoadAll(t, paths, normalize, disk).table;
      k in r.entries && r.entries[k] == FreshEntry(disk[k])
    decreases |paths|
  {
    if paths != [] {
      var key := normalize(paths[0]);
      if key in disk {
        LoadAllKeepsFresh(Put(t, key, FreshEntry(disk[key])), paths[1..], normalize, disk, k);
      }
    }
  }

  /**
   * After a batch that did not fail, every path in it maps, under its
   * normalized name, to the disk's text with version 0.
   */
  lemma {:induction false} LoadAllStores(t: Table, paths: seq<string>, normalize: string -> string, disk: map<string, string>)
    requires AllOnDisk(paths, normalize, disk)
    ensures var r := LoadAll(t, paths, normalize, disk).table;
      forall i :: 0 <= i < |paths| ==>
        normalize(paths[i]) in r.entries && r.entries[normalize(paths[i])] == FreshEntry(disk[normalize(paths[i])])
    decreases |paths|
  {
    if paths != [] {
      var key := normalize(paths[0]);
      assert key in disk;
      var t' := Put(t, key, FreshEntry(disk[key]));
      var rest := paths[1..];
      assert AllOnDisk(rest, normalize, disk) by {
        forall i | 0 <= i < |rest| ensures normalize(rest[i]) in disk {
          assert rest[i] == paths[i + 1];
        }
      }
      LoadAllStores(t', rest, normalize, disk);
      LoadAllKeepsFresh(t', rest, normalize, disk, key);
      forall i | 1 <= i < |paths|
        ensures normalize(paths[i]) in LoadAll(t, paths, normalize, disk).table.entries
      {
        assert paths[i] == rest[i - 1];
      }
    }
  }

  /**
   * After a batch that did not fail, the keys are the old keys plus the
   * batch's normalized paths: re-loading a key overwrites its entry instead
   * of adding a second one.
   */
  lemma {:induction false} LoadAllKeys(t: Table, paths: seq<string>, normalize: string -> string, disk: map<string, string>)
    requires AllOnDisk(paths, normalize, disk)
    ensures LoadAll(t, paths, normalize, disk).table.entries.Keys == t.entries.Keys + Targets(paths, normalize)
  {
    var r := LoadAll(t, paths, normalize, disk).table;
    LoadAllStores(t, paths, normalize, disk);
    forall k | k !in Targets(paths, normalize) ensures k in r.entries <==> k in t.entries {
      LoadAllFrame(t, paths, normalize, disk, k);
    }
  }

  /** A batch whose every path is already stored with the disk's text changes nothing. */
  lemma {:induction false} LoadAllUnchanged(t: Table, paths: seq<string>, normalize: string -> string, disk: map<string, string>)
    requires WellFormed(t) && AllOnDisk(paths, normalize, disk)
    requires forall i :: 0 <= i < |paths| ==>
      normalize(paths[i]) in t.entries && t.entries[normalize(paths[i])] == FreshEntry(disk[normalize(paths[i])])
    ensures LoadAll(t, paths, normalize, disk) == LoadResult(t, None)
    decreases |paths|
  {
    if paths != [] {
      var key := normalize(paths[0]);
      assert key in disk;
      assert Put(t, key, FreshEntry(disk[key])) == t;
      var rest := paths[1..];
      forall i | 0 <= i < |rest|
        ensures normalize(rest[i]) in disk && normalize(rest[i]) in t.entries &&
          t.entries[normalize(rest[i])] == FreshEntry(disk[normalize(rest[i])])
      {
        assert rest[i] == paths[i + 1];
      }
      LoadAllUnchanged(t, rest, normalize, disk);
    }
  }

  /** Loading the same batch twice from the same disk is the same as loading it once. */
  lemma {:induction false} LoadAllIdempotent(t: Table, paths: seq<string>, normalize: string -> string, disk: map<string, string>)
    requires WellFormed(t)
    ensures var once := LoadAll(t, paths, normalize, disk);
      LoadAll(once.table, paths, normalize, disk) == once
  {
    var once := LoadAll(t, paths, normalize, disk);
    LoadAllFailure(t, paths, normalize, disk);
    if once.failed.None? {
      LoadAllInvariant(t, paths, normalize, disk);
      LoadAllStores(t, paths, normalize, disk);
      LoadAllUnchanged(once.table, paths, normalize, disk);
    } else {
      // The second run rewrites the prefix the first one stored and stops at the same path.
      var i :| 0 <= i < |paths| && once.failed.value == normalize(paths[i]) &&
        once.failed.value !in disk && AllOnDisk(paths[..i], normalize, disk) &&
        once.table == LoadAll(t, paths[..i], normalize, disk).table;
      var prefix := paths[..i];
      LoadAllInvariant(t, prefix, normalize, disk);
      LoadAllStores(t, prefix, normalize, disk);
      LoadAllUnchanged(once.table, prefix, normalize, disk);
      LoadAllStopsAt(once.table, paths, normalize, disk, i);
    }
  }

  /** What `getScriptSnapshot` leaves behind: the table and the text handed out, if any. */
  datatype LookupResult = LookupResult(table: Table, snapshot: Option<string>)

  /**
   * `getScriptSnapshot(fileName)`: a file that is not on disk has no
   * snapshot, whatever the table says; a tracked file gets its stored text
   * without a new read; an untracked file on disk is read once and
   * registered with version 0.
   */
  function Lookup(t: Table, fileName: string, disk: map<string, string>): (r: LookupResult)
    requires Consistent(t)
    ensures Consistent(r.table)
    ensures r.snapshot.Some? <==> fileName in disk
    ensures fileName !in disk || fileName in t.entries ==> r.table == t
    ensures r.snapshot.Some? ==> fileName in r.table.entries && r.table.entries[fileName] == FreshEntry(r.snapshot.value)
    ensures fileName in disk && fileName in t.entries ==> r.snapshot == t.entries[fileName].text
    ensures fileName in disk && fileName !in t.entries ==>
      r.table == Put(t, fileName, FreshEntry(disk[fileName])) && r.snapshot == Some(disk[fileName])
  {
    if fileName !in disk then LookupResult(t, None)
    else if fileName in t.entries then LookupResult(t, t.entries[fileName].text)
    else LookupResult(Put(t, fileName, FreshEntry(disk[fileName])), Some(disk[fileName]))
  }

  /**
   * First read wins: once a lookup has handed out a text, a later lookup of
   * the same file hands out the same text and changes nothing, even if the
   * file on disk has changed since; it is absent only if the file has gone.
   */
  lemma LookupStable(t: Table, fileName: string, disk: map<string, string>, later: map<string, string>)
    requires Consistent(t) && fileName in disk
    ensures var first := Lookup(t, fileName, disk);
      var second := Lookup(first.table, fileName, later);
      second.table == first.table &&
      second.snapshot == (if fileName in later then first.snapshot else None)
  {
  }

  /**
   * The snapshot requests the compiler makes through the host while it
   * builds a program, one after another, each seeing the table the previous
   * one left.
   */
  function LookupAll(t: Table, fileNames: seq<string>, disk: map<string, string>): (r: Table)
    requires Consistent(t)
    ensures Consistent(r) && t.order <= r.order
    decreases |fileNames|
  {
    if fileNames == [] then t
    else LookupAll(Lookup(t, fileNames[0], disk).table, fileNames[1..], disk)
  }

  /** Requests never change or drop an entry that is already stored. */
  lemma {:induction false} LookupAllKeeps(t: Table, fileNames: seq<string>, disk: map<string, string>, k: string)
    requires Consistent(t) && k in t.entries
    ensures k in LookupAll(t, fileNames, disk).entries
    ensures LookupAll(t, fileNames, disk).entries[k] == t.entries[k]
    decreases |fileNames|
  {
    if fileNames != [] {
      LookupAllKeeps(Lookup(t, fileNames[0], disk).table, fileNames[1..], disk, k);
    }
  }

  /**
   * A requested file that was not tracked and exists on disk ends up stored
   * with its disk text and version 0, read by the first request for it.
   */
  lemma {:induction false} LookupAllFills(t: Table, fileNames: seq<string>, disk: map<string, string>, k: string)
    requires Consistent(t) && k !in t.entries && k in fileNames && k in disk
    ensures k in LookupAll(t, fileNames, disk).entries
    ensures LookupAll(t, fileNames, disk).entries[k] == FreshEntry(disk[k])
    decreases |fileNames|
  {
    var next := Lookup(t, fileNames[0], disk).table;
    if fileNames[0] == k {
      LookupAllKeeps(next, fileNames[1..], disk, k);
    } else {
      assert fileNames == [fileNames[0]] + fileNames[1..];
      LookupAllFills(next, fileNames[1..], disk, k);
    }
  }

  /**
   * After the requests the table tracks exactly what it tracked before plus
   * every requested file that exists on disk.
   */
  lemma {:induction false} LookupAllTracks(t: Table, fileNames: seq<string>, disk: map<string, string>)
    requires Consistent(t)
    ensures forall k :: k in LookupAll(t, fileNames, disk).entries <==> k in t.entries || (k in fileNames && k in disk)
    decreases |fileNames|
  {
    if fileNames != [] {
      var rest := fileNames[1..];
      assert fileNames == [fileNames[0]] + rest;
      LookupAllTracks(Lookup(t, fileNames[0], disk).table, rest, disk);
    }
  }

  /** The decimal digit `d`. */
  function DigitChar(d: nat): (c: char)
    requires d < 10
    ensures '0' <= c <= '9' && c as int - '0' as int == d
  {
    (d + '0' as int) as char
  }

  predicate IsDigits(s: string)
  {
    forall i :: 0 <= i < |s| ==> '0' <= s[i] <= '9'
  }

  /** `Number.prototype.toString()` on a non-negative integer: its decimal digits. */
  function NatToString(n: nat): (s: string)
    ensures |s| > 0 && IsDigits(s)
    ensures |s| > 1 ==> s[0] != '0'
    decreases n
  {
    if n < 10 then [DigitChar(n)] else NatToString(n / 10) + [DigitChar(n % 10)]
  }

  /** The number a string of decimal digits denotes. */
  function DigitsValue(s: string): nat
    requires IsDigits(s)
    decreases |s|
  {
    if s == [] then 0 else 10 * DigitsValue(s[..|s| - 1]) + (s[|s| - 1] as int - '0' as int)
  }

  /** The version string determines the version. */
  lemma {:induction false} NatToStringRoundTrip(n: nat)
    ensures DigitsValue(NatToString(n)) == n
    decreases n
  {
    var s := NatToString(n);
    if n >= 10 {
      NatToStringRoundTrip(n / 10);
      assert s[..|s| - 1] == NatToString(n / 10);
    }
  }
}
