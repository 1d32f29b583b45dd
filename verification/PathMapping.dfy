/**
  ToLocalFilename and ToRemoteFilename: file names of this machine against those of the machine
  that runs the debug engine, and when one undoes the other.
 */
module PathMapping {
  import opened Strings

  /** One entry of SourceCodeMappings. */
  datatype Mapping = Mapping(local: string, remote: string)

  // ---------------------------------------------------------------- string operations of the library

  function MakeLower(s: string): (r: string)
    ensures |r| == |s|
  {
    seq(|s|, k requires 0 <= k < |s| => LowerChar(s[k]))
  }

  predicate Contains(s: string, t: string) {
    exists k :: 0 <= k <= |s| && OccursAt(s, t, k)
  }

  predicate OccursAt(s: string, t: string, k: nat) {
    k + |t| <= |s| && s[k..k + |t|] == t
  }

  /** Replace: every occurrence from left to right, never inside what was put in; nothing for an empty `from`. */
  function Replace(s: string, from: string, to: string): string {
    if from == "" || |s| < |from| then s
    else if StartsWith(s, from) then to + Replace(s[|from|..], from, to)
    else [s[0]] + Replace(s[1..], from, to)
  }

  function Mid(s: string, k: nat): string {
    if k <= |s| then s[k..] else ""
  }

  /** Replace of every backslash by a slash. */
  function Slashed(s: string): (r: string)
    ensures |r| == |s|
  {
    seq(|s|, k requires 0 <= k < |s| => if s[k] == '\\' then '/' else s[k])
  }

  lemma {:induction false} SlashedIsReplace(s: string)
    ensures Replace(s, "\\", "/") == Slashed(s)
  {
    if s != "" {
      SlashedIsReplace(s[1..]);
      assert StartsWith(s, "\\") <==> s[0] == '\\';
      assert Slashed(s)[1..] == Slashed(s[1..]) && Slashed(s) == [Slashed(s)[0]] + Slashed(s)[1..];
    }
  }

  // ---------------------------------------------------------------- what the two functions compute

  predicate LocalMatches(m: Mapping, localFile: string) {
    StartsWith(MakeLower(localFile), MakeLower(m.local))
  }

  predicate RemoteMatches(m: Mapping, remoteFile: string) {
    StartsWith(MakeLower(remoteFile), Slashed(MakeLower(m.remote)))
  }

  /** The file name without the scheme: "file:///" when a drive letter follows, else "file://". */
  function WithoutScheme(xdebugFile: string): string {
    if ':' in Mid(xdebugFile, 8) then Mid(xdebugFile, 8) else Mid(xdebugFile, 7)
  }

  function FirstLocal(ms: seq<Mapping>, localFile: string): (k: nat)
    ensures k <= |ms|
  {
    if ms == [] || LocalMatches(ms[0], localFile) then 0 else 1 + FirstLocal(ms[1..], localFile)
  }

  function FirstRemote(ms: seq<Mapping>, remoteFile: string): (k: nat)
    ensures k <= |ms|
  {
    if ms == [] || RemoteMatches(ms[0], remoteFile) then 0 else 1 + FirstRemote(ms[1..], remoteFile)
  }

  function ToRemote(localFile: string, ms: seq<Mapping>): string {
    var k := FirstLocal(ms, localFile);
    if k < |ms| then Slashed(Replace(localFile, ms[k].local, ms[k].remote)) else localFile
  }

  function ToLocal(xdebugFile: string, ms: seq<Mapping>): string {
    var remoteFile := WithoutScheme(xdebugFile);
    var k := FirstRemote(ms, remoteFile);
    if k < |ms| then Replace(remoteFile, ms[k].remote, ms[k].local) else remoteFile
  }

  lemma {:induction false} FirstLocalIs(ms: seq<Mapping>, localFile: string, k: nat)
    requires k <= |ms| && (k < |ms| ==> LocalMatches(ms[k], localFile))
    requires forall j :: 0 <= j < k ==> !LocalMatches(ms[j], localFile)
    ensures FirstLocal(ms, localFile) == k
  {
    if k > 0 {
      assert !LocalMatches(ms[0], localFile);
      FirstLocalIs(ms[1..], localFile, k - 1);
    }
  }

  lemma {:induction false} FirstRemoteIs(ms: seq<Mapping>, remoteFile: string, k: nat)
    requires k <= |ms| && (k < |ms| ==> RemoteMatches(ms[k], remoteFile))
    requires forall j :: 0 <= j < k ==> !RemoteMatches(ms[j], remoteFile)
    ensures FirstRemote(ms, remoteFile) == k
  {
    if k > 0 {
      assert !RemoteMatches(ms[0], remoteFile);
      FirstRemoteIs(ms[1..], remoteFile, k - 1);
    }
  }

  method ToRemoteFilename(localFile: string, localToRemoteMappings: seq<Mapping>) returns (r: string)
    ensures r == ToRemote(localFile, localToRemoteMappings)
  {
    var remoteFile := "";
    var localLower := MakeLower(localFile);
    var foundMapping := false;
    var k := 0;
    while k < |localToRemoteMappings| && !foundMapping
      invariant 0 <= k <= |localToRemoteMappings|
      invariant !foundMapping ==> forall j :: 0 <= j < k ==> !LocalMatches(localToRemoteMappings[j], localFile)
      invariant foundMapping ==> remoteFile == ToRemote(localFile, localToRemoteMappings)
      decreases |localToRemoteMappings| - k, !foundMapping
    {
      var mapping := localToRemoteMappings[k];
      var localMappingLower := MakeLower(mapping.local);
      if StartsWith(localLower, localMappingLower) {
        FirstLocalIs(localToRemoteMappings, localFile, k);
        remoteFile := Replace(localFile, mapping.local, mapping.remote);
        SlashedIsReplace(remoteFile);
        remoteFile := Replace(remoteFile, "\\", "/");
        foundMapping := true;
      } else {
        k := k + 1;
      }
    }
    if !foundMapping {
      FirstLocalIs(localToRemoteMappings, localFile, k);
    }
    r := if foundMapping then remoteFile else localFile;
  }

  method ToLocalFilename(xdebugFile: string, localToRemoteMappings: seq<Mapping>) returns (localFile: string)
    ensures localFile == ToLocal(xdebugFile, localToRemoteMappings)
  {
    var remoteFile := Mid(xdebugFile, 8);
    if ':' !in remoteFile {
      remoteFile := Mid(xdebugFile, 7);
    }
    localFile := "";
    var remoteLower := MakeLower(remoteFile);
    var foundMapping := false;
    var k := 0;
    while k < |localToRemoteMappings| && !foundMapping
      invariant 0 <= k <= |localToRemoteMappings|
      invariant !foundMapping ==> forall j :: 0 <= j < k ==> !RemoteMatches(localToRemoteMappings[j], remoteFile)
      invariant foundMapping ==> localFile == ToLocal(xdebugFile, localToRemoteMappings)
      decreases |localToRemoteMappings| - k, !foundMapping
    {
      var mapping := localToRemoteMappings[k];
      var remoteMappingLower := MakeLower(mapping.remote);
      SlashedIsReplace(remoteMappingLower);
      remoteMappingLower := Replace(remoteMappingLower, "\\", "/");
      if StartsWith(remoteLower, remoteMappingLower) {
        FirstRemoteIs(localToRemoteMappings, remoteFile, k);
        localFile := remoteFile;
        localFile := Replace(localFile, mapping.remote, mapping.local);
        foundMapping := true;
      } else {
        k := k + 1;
      }
    }
    if !foundMapping {
      FirstRemoteIs(localToRemoteMappings, remoteFile, k);
      localFile := remoteFile;
    }
  }

  // ---------------------------------------------------------------- replacing

  lemma ContainsTail(s: string, t: string)
    requires s != "" && Contains(s[1..], t)
    ensures Contains(s, t)
  {
    var k :| 0 <= k <= |s[1..]| && OccursAt(s[1..], t, k);
    assert OccursAt(s, t, k + 1);
  }

  lemma {:induction false} ReplaceAbsent(s: string, from: string, to: string)
    requires !Contains(s, from)
    ensures Replace(s, from, to) == s
  {
    if from != "" && |s| >= |from| {
      assert !OccursAt(s, from, 0);
      if Contains(s[1..], from) {
        ContainsTail(s, from);
      }
      ReplaceAbsent(s[1..], from, to);
    }
  }

  lemma {:induction false} ReplaceSame(s: string, from: string)
    ensures Replace(s, from, from) == s
  {
    if from != "" && |s| >= |from| {
      if StartsWith(s, from) {
        ReplaceSame(s[|from|..], from);
      } else {
        ReplaceSame(s[1..], from);
      }
    }
  }

  lemma {:induction false} ReplaceLength(s: string, from: string, to: string)
    ensures |from| <= |to| ==> |s| <= |Replace(s, from, to)|
    ensures |from| >= |to| ==> |s| >= |Replace(s, from, to)|
  {
    if from != "" && |s| >= |from| {
      if StartsWith(s, from) {
        ReplaceLength(s[|from|..], from, to);
      } else {
        ReplaceLength(s[1..], from, to);
      }
    }
  }

  /** Replacing changes a string unless there is nothing to replace or the replacement is the same. */
  lemma {:induction false} ReplaceChanges(s: string, from: string, to: string)
    requires from != "" && from != to && Contains(s, from)
    ensures Replace(s, from, to) != s
  {
    if StartsWith(s, from) {
      var rest := s[|from|..];
      ReplaceLength(rest, from, to);
      assert s == from + rest;
      if |from| == |to| {
        var k :| 0 <= k < |from| && from[k] != to[k];
        assert (to + Replace(rest, from, to))[k] == to[k];
      } else {
        assert |Replace(s, from, to)| == |to| + |Replace(rest, from, to)|;
      }
    } else {
      var k :| 0 <= k <= |s| && OccursAt(s, from, k);
      assert k > 0;
      assert OccursAt(s[1..], from, k - 1);
      ReplaceChanges(s[1..], from, to);
      assert ([s[0]] + Replace(s[1..], from, to))[1..] == Replace(s[1..], from, to);
    }
  }

  lemma ReplaceRoot(root: string, r: string, to: string)
    requires root != ""
    ensures Replace(root + r, root, to) == to + Replace(r, root, to)
  {
    assert (root + r)[..|root|] == root && (root + r)[|root|..] == r;
  }

  // ---------------------------------------------------------------- matching

  lemma MakeLowerJoin(s: string, t: string)
    ensures MakeLower(s + t) == MakeLower(s) + MakeLower(t)
  {
  }

  lemma SlashedJoin(s: string, t: string)
    ensures Slashed(s + t) == Slashed(s) + Slashed(t)
  {
  }

  lemma SlashedAlready(s: string)
    requires '\\' !in s
    ensures Slashed(s) == s
  {
  }

  lemma PrefixesOfOne(s: string, a: string, b: string)
    requires StartsWith(s, a) && StartsWith(s, b)
    ensures StartsWith(a, b) || StartsWith(b, a)
  {
    if |a| <= |b| {
      assert b[..|a|] == s[..|b|][..|a|] == s[..|a|];
    } else {
      assert a[..|b|] == s[..|a|][..|b|] == s[..|b|];
    }
  }

  /** No root is inside another one, on either side; both comparisons ignore case. */
  ghost predicate RootsPrefixFree(ms: seq<Mapping>) {
    forall j, k :: 0 <= j < |ms| && 0 <= k < |ms| && j != k ==>
      && !StartsWith(MakeLower(ms[j].local), MakeLower(ms[k].local))
      && !StartsWith(Slashed(MakeLower(ms[j].remote)), Slashed(MakeLower(ms[k].remote)))
  }

  lemma LocalOfRoot(ms: seq<Mapping>, k: nat, r: string)
    requires RootsPrefixFree(ms) && k < |ms|
    ensures FirstLocal(ms, ms[k].local + r) == k
  {
    var p := ms[k].local + r;
    MakeLowerJoin(ms[k].local, r);
    assert LocalMatches(ms[k], p);
    forall j | 0 <= j < k ensures !LocalMatches(ms[j], p) {
      if LocalMatches(ms[j], p) {
        PrefixesOfOne(MakeLower(p), MakeLower(ms[j].local), MakeLower(ms[k].local));
      }
    }
    FirstLocalIs(ms, p, k);
  }

  /** The remote root may be written with either kind of slash; the file name has forward slashes. */
  lemma RemoteOfRoot(ms: seq<Mapping>, k: nat, r: string)
    requires RootsPrefixFree(ms) && k < |ms|
    ensures FirstRemote(ms, Slashed(ms[k].remote) + r) == k
  {
    var q := Slashed(ms[k].remote) + r;
    MakeLowerJoin(Slashed(ms[k].remote), r);
    LowerSlashed(ms[k].remote);
    assert RemoteMatches(ms[k], q);
    forall j | 0 <= j < k ensures !RemoteMatches(ms[j], q) {
      if RemoteMatches(ms[j], q) {
        PrefixesOfOne(MakeLower(q), Slashed(MakeLower(ms[j].remote)), Slashed(MakeLower(ms[k].remote)));
      }
    }
    FirstRemoteIs(ms, q, k);
  }

  lemma LowerSlashed(s: string)
    ensures MakeLower(Slashed(s)) == Slashed(MakeLower(s))
  {
  }

  /** The first mapping whose local root begins the file name ignoring case decides; without one the name stays. */
  lemma ToRemoteDecides(ms: seq<Mapping>, p: string, k: nat)
    requires k <= |ms| && forall j :: 0 <= j < k ==> !StartsWith(MakeLower(p), MakeLower(ms[j].local))
    ensures k == |ms| ==> ToRemote(p, ms) == p
    ensures k < |ms| && StartsWith(MakeLower(p), MakeLower(ms[k].local)) ==>
      ToRemote(p, ms) == Slashed(Replace(p, ms[k].local, ms[k].remote))
  {
    if k == |ms| || LocalMatches(ms[k], p) {
      FirstLocalIs(ms, p, k);
    }
  }

  /** So does, on the way back, the first whose remote root begins it, ignoring case and the kind of slash. */
  lemma ToLocalDecides(ms: seq<Mapping>, q: string, k: nat)
    requires k <= |ms| && forall j :: 0 <= j < k ==> !StartsWith(MakeLower(q), Slashed(MakeLower(ms[j].remote)))
    ensures k == |ms| ==> ToLocal(Uri(q), ms) == q
    ensures k < |ms| && StartsWith(MakeLower(q), Slashed(MakeLower(ms[k].remote))) ==>
      ToLocal(Uri(q), ms) == Replace(q, ms[k].remote, ms[k].local)
  {
    UriWithoutScheme(q);
    if k == |ms| || RemoteMatches(ms[k], q) {
      FirstRemoteIs(ms, q, k);
    }
  }

  // ---------------------------------------------------------------- there and back

  /** How the engine writes a file name of its machine. */
  function Uri(remoteFile: string): string {
    (if ':' in remoteFile then "file:///" else "file://") + remoteFile
  }

  lemma UriWithoutScheme(remoteFile: string)
    ensures WithoutScheme(Uri(remoteFile)) == remoteFile
  {
    var x := Uri(remoteFile);
    if ':' in remoteFile {
      assert x[8..] == remoteFile;
    } else {
      assert x[7..] == remoteFile;
      if |x| >= 8 {
        assert x[8..] == remoteFile[1..];
      }
    }
  }

  /** What the way out makes of any name inside a mapped directory. */
  lemma OutwardAny(ms: seq<Mapping>, k: nat, r: string)
    requires RootsPrefixFree(ms) && k < |ms| && ms[k].local != ""
    ensures ToRemote(ms[k].local + r, ms) == Slashed(ms[k].remote) + Slashed(Replace(r, ms[k].local, ms[k].remote))
  {
    LocalOfRoot(ms, k, r);
    ReplaceRoot(ms[k].local, r, ms[k].remote);
    SlashedJoin(ms[k].remote, Replace(r, ms[k].local, ms[k].remote));
  }

  /** Replacing in the remainder, and back, leaves it as it was. */
  predicate Undone(r: string, local: string, remote: string) {
    Replace(Slashed(Replace(r, local, remote)), remote, local) == Slashed(r)
  }

  /** In the name sent out for r, no character kept from r begins the remote root. */
  predicate KeptClear(r: string, local: string, remote: string) {
    if local == "" || |r| < |local| then !Contains(r, remote)
    else if StartsWith(r, local) then KeptClear(r[|local|..], local, remote)
    else !StartsWith(Replace(r, local, remote), remote) && KeptClear(r[1..], local, remote)
  }

  /**
    The condition on a mapping and a remainder. With a backslash in the remote root the remainder does
    not matter. Otherwise it must not bring up the remote root in what is kept of it; if it has the
    local root, that root must have no backslash.
   */
  predicate IsUndone(m: Mapping, r: string) {
    if '\\' in m.remote then Slashed(m.remote) == m.local
    else if m.remote == "" then false
    else if !Contains(r, m.local) then m.local == m.remote || !Contains(Slashed(r), m.remote)
    else if '\\' in m.local then false
    else if '\\' !in r then m.local == m.remote || KeptClear(r, m.local, m.remote)
    else Undone(r, m.local, m.remote)
  }

  lemma KeptWhenShort(r: string, local: string, remote: string)
    requires local != "" && remote != "" && local != remote && |r| < |local|
    ensures Replace(Replace(r, local, remote), remote, local) == r <==> !Contains(r, remote)
  {
    if Contains(r, remote) {
      ReplaceChanges(r, remote, local);
    } else {
      ReplaceAbsent(r, remote, local);
    }
  }

  /** Replacing and replacing back, character by character. */
  lemma {:induction false} BackExactlyWhenClear(r: string, local: string, remote: string)
    requires local != "" && remote != "" && local != remote
    ensures Replace(Replace(r, local, remote), remote, local) == r <==> KeptClear(r, local, remote)
  {
    if |r| < |local| {
      KeptWhenShort(r, local, remote);
    } else if StartsWith(r, local) {
      var rest := r[|local|..];
      var out := Replace(rest, local, remote);
      ReplaceRoot(remote, out, local);
      BackExactlyWhenClear(rest, local, remote);
      var back := Replace(out, remote, local);
      assert r == local + rest && (local + back)[|local|..] == back;
    } else {
      KeptFirst(r, local, remote);
      BackExactlyWhenClear(r[1..], local, remote);
    }
  }

  lemma KeptFirst(r: string, local: string, remote: string)
    requires local != "" && remote != "" && |r| >= |local| && !StartsWith(r, local)
    ensures var out := Replace(r[1..], local, remote);
      (Replace(Replace(r, local, remote), remote, local) == r) ==
        (!StartsWith(Replace(r, local, remote), remote) && Replace(out, remote, local) == r[1..])
  {
    var out := Replace(r[1..], local, remote);
    var all := [r[0]] + out;
    assert Replace(r, local, remote) == all;
    if StartsWith(all, remote) {
      var back := local + Replace(all[|remote|..], remote, local);
      assert back[..|local|] == local;
    } else {
      assert all[1..] == out;
      var back := Replace(out, remote, local);
      assert Replace(all, remote, local) == [r[0]] + back;
      assert ([r[0]] + back)[1..] == back && r == [r[0]] + r[1..];
    }
  }

  lemma {:induction false} ReplaceHasOnly(s: string, from: string, to: string, c: char)
    requires c !in s && c !in to
    ensures c !in Replace(s, from, to)
  {
    if from != "" && |s| >= |from| {
      if StartsWith(s, from) {
        ReplaceHasOnly(s[|from|..], from, to, c);
      } else {
        ReplaceHasOnly(s[1..], from, to, c);
      }
    }
  }

  lemma PutInAt(s: string, from: string, to: string, k: nat, head: string)
    requires OccursAt(s, to, k)
    ensures OccursAt(head + s, to, |head| + k)
  {
    assert (head + s)[|head| + k..|head| + k + |to|] == s[k..k + |to|];
  }

  /** What is put in is there. */
  lemma {:induction false} ReplacePutsIn(s: string, from: string, to: string)
    requires from != "" && Contains(s, from)
    ensures Contains(Replace(s, from, to), to)
  {
    if StartsWith(s, from) {
      var rest := Replace(s[|from|..], from, to);
      assert OccursAt(to + rest, to, 0);
    } else {
      var k :| 0 <= k <= |s| && OccursAt(s, from, k);
      assert OccursAt(s[1..], from, k - 1);
      ReplacePutsIn(s[1..], from, to);
      var rest := Replace(s[1..], from, to);
      var j :| 0 <= j <= |rest| && OccursAt(rest, to, j);
      PutInAt(rest, from, to, j, [s[0]]);
    }
  }

  lemma SlashedKeepsOccurrence(s: string, t: string)
    requires '\\' !in t && Contains(s, t)
    ensures Contains(Slashed(s), t)
  {
    var k :| 0 <= k <= |s| && OccursAt(s, t, k);
    assert Slashed(s)[k..k + |t|] == Slashed(s[k..k + |t|]);
    SlashedAlready(t);
    assert OccursAt(Slashed(s), t, k);
  }

  /** A local root with a backslash comes back in the remainder with that backslash, which the slashed name has not. */
  lemma BackslashIsSeen(r: string, local: string, remote: string)
    requires local != "" && remote != "" && '\\' !in remote && '\\' in local && Contains(r, local)
    ensures !Undone(r, local, remote)
  {
    var out := Replace(r, local, remote);
    ReplacePutsIn(r, local, remote);
    SlashedKeepsOccurrence(out, remote);
    ReplacePutsIn(Slashed(out), remote, local);
    var back := Replace(Slashed(out), remote, local);
    var k :| 0 <= k <= |back| && OccursAt(back, local, k);
    OccursHasChar(back, local, k, '\\');
    assert '\\' !in Slashed(r);
  }

  lemma ForwardRemainder(r: string, local: string, remote: string)
    requires '\\' !in r && '\\' !in remote && local != "" && remote != ""
    ensures Undone(r, local, remote) <==> local == remote || KeptClear(r, local, remote)
  {
    ReplaceHasOnly(r, local, remote, '\\');
    SlashedAlready(r);
    SlashedAlready(Replace(r, local, remote));
    if local == remote {
      ReplaceSame(r, local);
    } else {
      BackExactlyWhenClear(r, local, remote);
    }
  }

  lemma AbsentRemainder(r: string, local: string, remote: string)
    requires !Contains(r, local) && remote != ""
    ensures Undone(r, local, remote) <==> local == remote || !Contains(Slashed(r), remote)
  {
    ReplaceAbsent(r, local, remote);
    if local == remote {
      ReplaceSame(Slashed(r), local);
    } else if Contains(Slashed(r), remote) {
      ReplaceChanges(Slashed(r), remote, local);
    } else {
      ReplaceAbsent(Slashed(r), remote, local);
    }
  }

  lemma UndoneExactlyWhen(m: Mapping, r: string)
    requires '\\' !in m.remote && m.remote != "" && m.local != ""
    ensures Undone(r, m.local, m.remote) <==> IsUndone(m, r)
  {
    if !Contains(r, m.local) {
      AbsentRemainder(r, m.local, m.remote);
    } else if '\\' in m.local {
      BackslashIsSeen(r, m.local, m.remote);
    } else if '\\' !in r {
      ForwardRemainder(r, m.local, m.remote);
    }
  }

  /** A remote root written with forward slashes. */
  lemma ForwardRoot(ms: seq<Mapping>, k: nat, r: string)
    requires RootsPrefixFree(ms) && k < |ms| && ms[k].local != "" && '\\' !in ms[k].remote
    ensures var m := ms[k]; var s := Slashed(Replace(r, m.local, m.remote));
      ToLocal(Uri(ToRemote(m.local + r, ms)), ms) == if m.remote == "" then s else m.local + Replace(s, m.remote, m.local)
  {
    var m := ms[k];
    var s := Slashed(Replace(r, m.local, m.remote));
    OutwardAny(ms, k, r);
    SlashedAlready(m.remote);
    UriWithoutScheme(m.remote + s);
    RemoteOfRoot(ms, k, s);
    if m.remote == "" {
      assert "" + s == s;
    } else {
      ReplaceRoot(m.remote, s, m.local);
    }
  }

  lemma EmptyRoot(local: string, r: string)
    requires local != ""
    ensures Slashed(Replace(r, local, "")) != local + Slashed(r)
  {
    ReplaceLength(r, local, "");
    assert |Slashed(Replace(r, local, ""))| < |local + Slashed(r)|;
  }

  /** Replacing a root by one that is the same up to slashes changes nothing but slashes. */
  lemma {:induction false} SlashedReplace(s: string, from: string, to: string)
    requires Slashed(to) == from
    ensures Slashed(Replace(s, from, to)) == Slashed(s)
  {
    if from != "" && |s| >= |from| {
      if StartsWith(s, from) {
        var rest := s[|from|..];
        SlashedReplace(rest, from, to);
        SlashedJoin(to, Replace(rest, from, to));
        SlashedJoin(from, rest);
        assert s == from + rest && Slashed(from) == from;
      } else {
        SlashedReplace(s[1..], from, to);
        SlashedJoin([s[0]], Replace(s[1..], from, to));
        SlashedJoin([s[0]], s[1..]);
        assert s == [s[0]] + s[1..];
      }
    }
  }

  /** A remote root written with backslashes, on the way back: the name of the other machine comes back. */
  lemma BackslashRoot(m: Mapping, r: string)
    requires '\\' in m.remote && m.local != ""
    ensures Slashed(m.remote) + Slashed(Replace(r, m.local, m.remote)) == m.local + Slashed(r) <==> Slashed(m.remote) == m.local
  {
    var out := Slashed(m.remote) + Slashed(Replace(r, m.local, m.remote));
    ReplaceLength(r, m.local, m.remote);
    if Slashed(m.remote) == m.local {
      SlashedReplace(r, m.local, m.remote);
    } else if |m.remote| == |m.local| {
      var k :| 0 <= k < |m.local| && Slashed(m.remote)[k] != m.local[k];
      assert out[k] == Slashed(m.remote)[k] && (m.local + Slashed(r))[k] == m.local[k];
    } else {
      assert |out| == |m.remote| + |Replace(r, m.local, m.remote)| && |m.local + Slashed(r)| == |m.local| + |r|;
    }
  }

  /**
    For every mapping with a local root and every file below it: the name comes back up to the kind
    of slash exactly under the condition of IsUndone.
   */
  lemma ComesBackExactlyWhen(ms: seq<Mapping>, k: nat, r: string)
    requires RootsPrefixFree(ms) && k < |ms| && ms[k].local != ""
    ensures ToLocal(Uri(ToRemote(ms[k].local + r, ms)), ms) == ms[k].local + Slashed(r) <==> IsUndone(ms[k], r)
  {
    var m := ms[k];
    if '\\' in m.remote {
      BackslashRootIsNotMappedBack(ms, k, r);
      OutwardAny(ms, k, r);
      BackslashRoot(m, r);
    } else {
      ForwardRoot(ms, k, r);
      if m.remote == "" {
        EmptyRoot(m.local, r);
      } else {
        UndoneExactlyWhen(m, r);
        var back := Replace(Slashed(Replace(r, m.local, m.remote)), m.remote, m.local);
        assert (m.local + back)[|m.local|..] == back && (m.local + Slashed(r))[|m.local|..] == Slashed(r);
      }
    }
  }

  /**
    The two functions are inverses, up to the kind of slash, on a file inside a mapped directory
    whose remainder does not repeat the local root: exactly when it does not repeat the remote root
    either.
   */
  lemma RoundTrip(ms: seq<Mapping>, k: nat, r: string)
    requires RootsPrefixFree(ms) && k < |ms| && ms[k].local != "" && ms[k].remote != ""
    requires '\\' !in ms[k].remote && !Contains(r, ms[k].local)
    ensures ToLocal(Uri(ToRemote(ms[k].local + r, ms)), ms) == ms[k].local + Slashed(r)
      <==> ms[k].local == ms[k].remote || !Contains(Slashed(r), ms[k].remote)
  {
    ComesBackExactlyWhen(ms, k, r);
  }

  /** With forward slashes in the remainder it is the very same file name that comes back. */
  lemma SameNameComesBack(ms: seq<Mapping>, k: nat, r: string)
    requires RootsPrefixFree(ms) && k < |ms| && ms[k].local != "" && '\\' !in r
    ensures ToLocal(Uri(ToRemote(ms[k].local + r, ms)), ms) == ms[k].local + r <==> IsUndone(ms[k], r)
  {
    SlashedAlready(r);
    ComesBackExactlyWhen(ms, k, r);
  }

  lemma SlashedHasNoBackslash(root: string, r: string, t: string)
    requires '\\' in t
    ensures !Contains(Slashed(root) + Slashed(r), t)
  {
    var q := Slashed(root) + Slashed(r);
    assert '\\' !in q;
    forall n: nat ensures !OccursAt(q, t, n) {
      if OccursAt(q, t, n) {
        OccursHasChar(q, t, n, '\\');
      }
    }
  }

  lemma OccursHasChar(s: string, t: string, n: nat, c: char)
    requires OccursAt(s, t, n) && c in t
    ensures c in s
  {
    var j :| 0 <= j < |t| && t[j] == c;
    assert s[n..n + |t|][j] == s[n + j];
  }

  /**
    A remote root written with backslashes is found again, but nothing is replaced: the engine's
    file name stays what it is.
   */
  lemma BackslashRootIsNotMappedBack(ms: seq<Mapping>, k: nat, r: string)
    requires RootsPrefixFree(ms) && k < |ms| && ms[k].local != "" && '\\' in ms[k].remote
    ensures ToLocal(Uri(ToRemote(ms[k].local + r, ms)), ms) == ToRemote(ms[k].local + r, ms)
  {
    var m := ms[k];
    var s := Replace(r, m.local, m.remote);
    OutwardAny(ms, k, r);
    UriWithoutScheme(Slashed(m.remote) + Slashed(s));
    RemoteOfRoot(ms, k, Slashed(s));
    SlashedHasNoBackslash(m.remote, s, m.remote);
    ReplaceAbsent(Slashed(m.remote) + Slashed(s), m.remote, m.local);
  }

  /** A file outside every mapped directory of either machine keeps its name. */
  lemma OutsideIsKept(ms: seq<Mapping>, p: string)
    requires forall k :: 0 <= k < |ms| ==> !LocalMatches(ms[k], p) && !RemoteMatches(ms[k], p)
    ensures ToRemote(p, ms) == p && ToLocal(Uri(p), ms) == p
  {
    FirstLocalIs(ms, p, |ms|);
    FirstRemoteIs(ms, p, |ms|);
    UriWithoutScheme(p);
  }

  /** Roots are found ignoring case but replaced as written: a file named in another case is not mapped. */
  lemma OtherCaseIsNotMapped(ms: seq<Mapping>, k: nat, p: string)
    requires RootsPrefixFree(ms) && k < |ms| && LocalMatches(ms[k], p) && !Contains(p, ms[k].local)
    ensures ToRemote(p, ms) == Slashed(p)
  {
    forall j | 0 <= j < k ensures !LocalMatches(ms[j], p) {
      if LocalMatches(ms[j], p) {
        PrefixesOfOne(MakeLower(p), MakeLower(ms[j].local), MakeLower(ms[k].local));
      }
    }
    FirstLocalIs(ms, p, k);
    ReplaceAbsent(p, ms[k].local, ms[k].remote);
  }

  /** Some mapping is found for the name on the way back, and replaces something in it. */
  predicate MappedBack(ms: seq<Mapping>, remoteFile: string) {
    var j := FirstRemote(ms, remoteFile);
    j < |ms| && ms[j].remote != "" && ms[j].remote != ms[j].local && Contains(remoteFile, ms[j].remote)
  }

  /**
    So its name reaches the engine as it is, up to slashes, and comes back as that if and only if it
    is in no remote directory that is mapped to another name.
   */
  lemma OtherCaseComesBackExactlyWhen(ms: seq<Mapping>, k: nat, p: string)
    requires RootsPrefixFree(ms) && k < |ms| && LocalMatches(ms[k], p) && !Contains(p, ms[k].local)
    ensures ToLocal(Uri(ToRemote(p, ms)), ms) == Slashed(p) <==> !MappedBack(ms, Slashed(p))
  {
    var q := Slashed(p);
    OtherCaseIsNotMapped(ms, k, p);
    UriWithoutScheme(q);
    var j := FirstRemote(ms, q);
    if j < |ms| {
      var m := ms[j];
      if MappedBack(ms, q) {
        ReplaceChanges(q, m.remote, m.local);
      } else if m.remote == m.local {
        ReplaceSame(q, m.local);
      } else if m.remote != "" {
        ReplaceAbsent(q, m.remote, m.local);
      }
    }
  }

  /** The remote root occurs again below itself: the name that comes back is another one. */
  lemma RepeatedRootIsNotUndone()
    ensures var ms := [Mapping("/home", "/www")]; ToLocal(Uri(ToRemote("/home" + "/www", ms)), ms) != "/home" + "/www"
  {
    var ms := [Mapping("/home", "/www")];
    assert !Contains("/www", "/home");
    SlashedAlready("/www");
    assert OccursAt("/www", "/www", 0);
    RoundTrip(ms, 0, "/www");
  }

  /** With mixed slashes the remote root can begin at a character that was kept, and the remainder still come back. */
  lemma MixedSlashesComeBack()
    ensures StartsWith(Slashed(Replace("\\/", "/", "//")), "//") && !StartsWith("\\/", "/")
    ensures Undone("\\/", "/", "//")
  {
    assert Replace("", "/", "//") == "";
    assert Replace("/", "/", "//") == "//" + "";
    assert "\\/"[1..] == "/";
    assert Replace("\\/", "/", "//") == ['\\'] + "//";
    assert Slashed(['\\'] + "//") == "///";
    assert "///"[2..] == "/" && Replace("/", "//", "/") == "/";
    assert StartsWith("///", "//");
    assert Replace("///", "//", "/") == "/" + "/";
    assert Slashed("\\/") == "//";
  }
}
