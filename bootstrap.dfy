/**
 * Start-up helpers: reading a boolean flag from the environment and choosing
 * the one input file at the root of the bucket.
 */
module Bootstrap {
  import opened Wrappers
  import opened JsStrings

  /**
   * envStringToBoolean: only the exact texts "true" and "1" turn a flag on, so
   * an unset variable, a value with surrounding whitespace and a value with
   * any upper-case letter all leave it off.
   */
  function EnvStringToBoolean(envVar: Option<string>): (on: bool)
    ensures on ==> envVar.Some? && (|envVar.value| == 1 || |envVar.value| == 4)
    ensures on <==> envVar == Some("true") || envVar == Some("1")
    ensures envVar.Some? && Trim(envVar.value) != envVar.value ==> !on
    ensures envVar.Some? && (exists k :: 0 <= k < |envVar.value| && 'A' <= envVar.value[k] <= 'Z') ==> !on
  {
    TrimKeeps("true");
    TrimKeeps("1");
    match envVar
    case None => false
    case Some(v) => v == "true" || v == "1"
  }

  /** The comparison is exact: no case folding, no trimming, no other truthy words. */
  lemma EnvFlagIsExact()
    ensures !EnvStringToBoolean(Some("TRUE")) && !EnvStringToBoolean(Some("True"))
    ensures !EnvStringToBoolean(Some(" true")) && !EnvStringToBoolean(Some("yes"))
    ensures !EnvStringToBoolean(Some("0")) && !EnvStringToBoolean(Some(""))
    ensures !EnvStringToBoolean(None)
  {
    assert "TRUE"[0] != "true"[0];
    assert "True"[0] != "true"[0];
    assert " true"[0] != "true"[0];
  }

  const ArchivePrefix := "archive/"

  /** The listed keys outside the archive folder, in listing order. */
  function NonArchived(keys: seq<string>): (live: seq<string>)
    ensures |live| <= |keys|
    ensures forall k :: k in live <==> k in keys && !StartsWith(k, ArchivePrefix)
  {
    if keys == [] then []
    else
      var init := keys[..|keys| - 1];
      var k := keys[|keys| - 1];
      assert forall x :: x in keys <==> x in init || x == k;
      NonArchived(init) + (if StartsWith(k, ArchivePrefix) then [] else [k])
  }

  /** The filter works key by key, so it keeps the listing's order and repetitions. */
  lemma {:induction false} NonArchivedConcat(a: seq<string>, b: seq<string>)
    ensures NonArchived(a + b) == NonArchived(a) + NonArchived(b)
    decreases |b|
  {
    if b == [] {
      assert a + b == a;
    } else {
      var init := b[..|b| - 1];
      var k := b[|b| - 1];
      assert (a + b)[..|a + b| - 1] == a + init;
      assert (a + b)[|a + b| - 1] == k;
      NonArchivedConcat(a, init);
    }
  }

  /**
   * getRootFile: the single key outside the archive folder. A failed listing,
   * no such key, or more than one gives `None` (the error is logged and the
   * function returns undefined).
   */
  function GetRootFile(listing: Option<seq<string>>): (root: Option<string>)
    ensures root.Some? <==> listing.Some? && |NonArchived(listing.value)| == 1
    ensures root.Some? ==> root.value in listing.value && !StartsWith(root.value, ArchivePrefix)
  {
    match listing
    case None => None
    case Some(keys) =>
      var files := NonArchived(keys);
      if |files| != 1 then None
      else
        assert files[0] in files;
        Some(files[0])
  }

  /** With two different keys outside the archive folder no root file is chosen. */
  lemma AmbiguousRootIsRejected(keys: seq<string>, a: string, b: string)
    requires a in keys && b in keys && a != b
    requires !StartsWith(a, ArchivePrefix) && !StartsWith(b, ArchivePrefix)
    ensures GetRootFile(Some(keys)) == None
  {
    var files := NonArchived(keys);
    assert a in files && b in files;
  }

  /** When exactly one key lies outside the archive folder, that key is the root file, whatever is archived. */
  lemma SoleLiveKeyIsRoot(keys: seq<string>, root: string)
    requires root in keys && !StartsWith(root, ArchivePrefix)
    requires forall k :: k in keys && k != root ==> StartsWith(k, ArchivePrefix)
    requires forall i, j :: 0 <= i < j < |keys| && keys[i] == root ==> keys[j] != root
    ensures GetRootFile(Some(keys)) == Some(root)
  {
    SoleLiveKey(keys, root);
  }

  lemma {:induction false} SoleLiveKey(keys: seq<string>, root: string)
    requires root in keys && !StartsWith(root, ArchivePrefix)
    requires forall k :: k in keys && k != root ==> StartsWith(k, ArchivePrefix)
    requires forall i, j :: 0 <= i < j < |keys| && keys[i] == root ==> keys[j] != root
    ensures NonArchived(keys) == [root]
    decreases |keys|
  {
    var init := keys[..|keys| - 1];
    var k := keys[|keys| - 1];
    if k == root {
      assert root !in init;
      AllArchived(init);
    } else {
      assert root in init;
      SoleLiveKey(init, root);
    }
  }

  lemma {:induction false} AllArchived(keys: seq<string>)
    requires forall k :: k in keys ==> StartsWith(k, ArchivePrefix)
    ensures NonArchived(keys) == []
    decreases |keys|
  {
    if keys != [] {
      assert keys[|keys| - 1] in keys;
      assert forall k :: k in keys[..|keys| - 1] ==> k in keys;
      AllArchived(keys[..|keys| - 1]);
    }
  }
}
