/**
 * Path utilities of pyxfoil.py: splitting a path on '/', the parent
 * directory of a file, the directories MakeOutputDir would try to create,
 * and the airfoil name FindBetween extracts from a geometry file path.
 */
module Paths {
  import opened Wrappers

  const Sep: char := '/'

  /** `s.split('/')`: the text between separators, never an empty list. */
  function Split(s: string): (parts: seq<string>)
    ensures |parts| > 0
    ensures forall k :: 0 <= k < |parts| ==> Sep !in parts[k]
    decreases |s|
  {
    if s == [] then [""]
    else
      var rest := Split(s[1..]);
      if s[0] == Sep then [""] + rest
      else [[s[0]] + rest[0]] + rest[1..]
  }

  /** `'/'.join(parts)` */
  function Join(parts: seq<string>): string
    requires |parts| > 0
  {
    if |parts| == 1 then parts[0] else parts[0] + [Sep] + Join(parts[1..])
  }

  /** Splitting and joining again gives back the path. */
  lemma {:induction false} SplitJoin(s: string)
    ensures Join(Split(s)) == s
    decreases |s|
  {
    if s != [] {
      var rest := Split(s[1..]);
      SplitJoin(s[1..]);
      if s[0] == Sep {
        assert Split(s)[1..] == rest;
      } else if |rest| == 1 {
        assert Split(s) == [[s[0]] + rest[0]];
      } else {
        var parts := Split(s);
        assert parts[1..] == rest[1..];
        assert Join(rest) == rest[0] + [Sep] + Join(rest[1..]);
      }
    }
  }

  /** Every component followed by '/', concatenated: the accumulator of the
      loops in GetParentDir and MakeOutputDir. */
  function Terminated(parts: seq<string>): string
  {
    if parts == [] then "" else parts[0] + [Sep] + Terminated(parts[1..])
  }

  lemma {:induction false} TerminatedSnoc(parts: seq<string>, last: string)
    ensures Terminated(parts + [last]) == Terminated(parts) + last + [Sep]
    decreases |parts|
  {
    if parts != [] {
      assert (parts + [last])[1..] == parts[1..] + [last];
      TerminatedSnoc(parts[1..], last);
    }
  }

  lemma {:induction false} JoinAsTerminated(parts: seq<string>)
    requires |parts| > 0
    ensures Join(parts) == Terminated(parts[..|parts| - 1]) + parts[|parts| - 1]
    decreases |parts|
  {
    if |parts| > 1 {
      JoinAsTerminated(parts[1..]);
      assert parts[1..][..|parts| - 2] == parts[..|parts| - 1][1..];
    }
  }

  lemma {:induction false} TerminatedEndsWithSep(parts: seq<string>)
    requires parts != []
    ensures |Terminated(parts)| > 0 && Terminated(parts)[|Terminated(parts)| - 1] == Sep
  {
    var n := |parts|;
    assert parts == parts[..n - 1] + [parts[n - 1]];
    TerminatedSnoc(parts[..n - 1], parts[n - 1]);
  }

  /** The parent directory as GetParentDir builds it: every component but the
      last, each followed by '/'. */
  function ParentDir(path: string): string
  {
    var parts := Split(path);
    Terminated(parts[..|parts| - 1])
  }

  /** The parent directory is the longest prefix of the path that ends in '/':
      it is a prefix, it is empty or ends in '/', and what follows holds no '/'.
      A path without '/' has the empty parent. */
  lemma ParentDirSplitsPath(path: string)
    ensures ParentDir(path) <= path
    ensures ParentDir(path) == "" || ParentDir(path)[|ParentDir(path)| - 1] == Sep
    ensures Sep !in path[|ParentDir(path)|..]
    ensures ParentDir(path) == "" <==> Sep !in path
  {
    var parts := Split(path);
    var n := |parts|;
    SplitJoin(path);
    JoinAsTerminated(parts);
    assert path == ParentDir(path) + parts[n - 1];
    assert path[|ParentDir(path)|..] == parts[n - 1];
    if n > 1 {
      TerminatedEndsWithSep(parts[..n - 1]);
      assert path[|ParentDir(path)| - 1] == Sep;
    }
  }

  /** GetParentDir (pyxfoil.py:73-81), with its accumulating loop. */
  method GetParentDir(savename: string) returns (parent: string)
    ensures parent == ParentDir(savename)
    ensures parent <= savename && Sep !in savename[|parent|..]
    ensures parent == "" || parent[|parent| - 1] == Sep
  {
    var splitstring := Split(savename);
    parent := "";
    for i := 0 to |splitstring| - 1
      invariant parent == Terminated(splitstring[..i])
    {
      assert splitstring[..i + 1] == splitstring[..i] + [splitstring[i]];
      TerminatedSnoc(splitstring[..i], splitstring[i]);
      parent := parent + splitstring[i] + [Sep];
    }
    ParentDirSplitsPath(savename);
  }

  /** The directories MakeOutputDir (pyxfoil.py:59-71) passes to os.mkdir, in
      order: each component of `savedir` appended with a '/' to the previous
      attempt, the last being `savedir` itself with a trailing '/'. */
  method MakeOutputDir(savedir: string) returns (attempts: seq<string>)
    ensures |attempts| == |Split(savedir)|
    ensures forall k :: 0 <= k < |attempts| ==> attempts[k] == Terminated(Split(savedir)[..k + 1])
    ensures forall k :: 0 < k < |attempts| ==> attempts[k - 1] < attempts[k]
    ensures attempts[|attempts| - 1] == savedir + [Sep]
  {
    var splitstring := Split(savedir);
    var prestring := "";
    attempts := [];
    for i := 0 to |splitstring|
      invariant |attempts| == i
      invariant prestring == Terminated(splitstring[..i])
      invariant forall k :: 0 <= k < i ==> attempts[k] == Terminated(splitstring[..k + 1])
      invariant forall k :: 0 < k < i ==> attempts[k - 1] < attempts[k]
    {
      assert splitstring[..i + 1] == splitstring[..i] + [splitstring[i]];
      TerminatedSnoc(splitstring[..i], splitstring[i]);
      ghost var previous := prestring;
      prestring := prestring + splitstring[i] + [Sep];
      assert previous < prestring;
      attempts := attempts + [prestring];
    }
    assert splitstring[..|splitstring|] == splitstring;
    TerminatedSplit(savedir);
  }

  /** Every component of a path followed by '/' is the path plus one '/'. */
  lemma TerminatedSplit(s: string)
    ensures Terminated(Split(s)) == s + [Sep]
  {
    var parts := Split(s);
    var n := |parts|;
    SplitJoin(s);
    JoinAsTerminated(parts);
    assert parts == parts[..n - 1] + [parts[n - 1]];
    TerminatedSnoc(parts[..n - 1], parts[n - 1]);
  }

  /** True when `before` ends exactly at position p of s: the lookbehind
      `(?<=before)`, with `before` read literally. */
  predicate LookbehindAt(s: string, before: string, p: nat)
    requires p <= |s|
  {
    |before| <= p && s[p - |before|..p] == before
  }

  /** A '.' lies at or after p with no newline before it: what the lazy
      `(.*?)(?=\.)` needs to match from p, since `.` does not match '\n'. */
  predicate DotReachable(s: string, p: nat)
    requires p <= |s|
  {
    exists d :: p <= d < |s| && s[d] == '.' && forall k :: p <= k < d ==> s[k] != '\n'
  }

  /** Where the lazy `(.*?)(?=\.)` starting at p stops: the first '.' at or
      after p, unless a newline comes first. */
  function DotAhead(s: string, p: nat): (q: Option<nat>)
    requires p <= |s|
    ensures q.Some? ==> p <= q.value < |s| && s[q.value] == '.'
    ensures q.Some? ==> forall k :: p <= k < q.value ==> s[k] != '.' && s[k] != '\n'
    ensures q.Some? <==> DotReachable(s, p)
    decreases |s| - p
  {
    if p == |s| then None
    else if s[p] == '.' then Some(p)
    else if s[p] == '\n' then None
    else DotAhead(s, p + 1)
  }

  /** `re.search('(?<=before)(?P<value>.*?)(?=\.)', s)` scanning start positions
      from p: the first start where it matches gives the text up to the dot,
      which never holds a '.' or a newline. */
  function SearchFrom(s: string, before: string, p: nat): (r: string)
    requires p <= |s|
    ensures '.' !in r && '\n' !in r
    decreases |s| - p
  {
    if LookbehindAt(s, before, p) && DotAhead(s, p).Some? then
      var q := DotAhead(s, p).value;
      assert forall k :: 0 <= k < q - p ==> s[p..q][k] == s[p + k];
      s[p..q]
    else if p == |s| then "No Match"
    else SearchFrom(s, before, p + 1)
  }

  /** A match sits in s right after `before` and right before a '.'. */
  lemma {:induction false} SearchFromFound(s: string, before: string, p: nat)
    requires p <= |s|
    ensures var r := SearchFrom(s, before, p);
      r == "No Match" || exists i :: p <= i && i + |r| < |s| && LookbehindAt(s, before, i)
                                        && s[i..i + |r|] == r && s[i + |r|] == '.'
    decreases |s| - p
  {
    if LookbehindAt(s, before, p) && DotAhead(s, p).Some? {
      var q := DotAhead(s, p).value;
      assert s[p..p + (q - p)] == SearchFrom(s, before, p);
    } else if p < |s| {
      SearchFromFound(s, before, p + 1);
    }
  }

  /** FindBetween(string, before, '\.') (pyxfoil.py:83-99, used at line 170):
      "No Match", or a text with no '.' or newline. */
  function FindBetweenDot(s: string, before: string): (r: string)
    ensures '.' !in r && '\n' !in r
  {
    SearchFrom(s, before, 0)
  }

  lemma {:induction false} SearchSkips(s: string, before: string, p: nat, k: nat)
    requires p <= k <= |s|
    requires forall j :: p <= j < k ==> !(LookbehindAt(s, before, j) && DotAhead(s, j).Some?)
    ensures SearchFrom(s, before, p) == SearchFrom(s, before, k)
    decreases k - p
  {
    if p < k {
      SearchSkips(s, before, p + 1, k);
    }
  }

  lemma {:induction false} SearchWithoutDot(s: string, before: string, p: nat)
    requires p <= |s|
    requires forall k :: p <= k < |s| ==> s[k] != '.'
    ensures SearchFrom(s, before, p) == "No Match"
    decreases |s| - p
  {
    if p < |s| {
      SearchWithoutDot(s, before, p + 1);
    }
  }

  /** When a dot follows p with no newline in between, the match started at
      p is the text from p up to the first dot. */
  lemma MatchUpToFirstDot(s: string, p: nat, d: nat)
    requires p <= d < |s| && s[d] == '.'
    requires forall k :: p <= k < d ==> s[k] != '\n'
    ensures DotAhead(s, p).Some?
    ensures '.' !in s[p..DotAhead(s, p).value] && '\n' !in s[p..DotAhead(s, p).value]
    ensures s[p..DotAhead(s, p).value] + "." <= s[p..]
  {
  }

  /** The airfoil name taken from a geometry file path (pyxfoil.py:169-170).
      When a '.' follows the parent directory with no newline before it, the
      name is the file name's text before that first '.'. Otherwise it is
      "No Match", except for a path without '/' whose first line holds no
      dot: the search then goes on from just after the first newline. Dots in
      directory names never contribute. */
  lemma FileStem(path: string)
    ensures ParentDir(path) <= path
    ensures var parent := ParentDir(path); var name := FindBetweenDot(path, parent);
      && (DotReachable(path, |parent|) ==>
            '.' !in name && '\n' !in name && name + "." <= path[|parent|..])
      && (!DotReachable(path, |parent|) && (parent != "" || '\n' !in path) ==> name == "No Match")
      && (!DotReachable(path, |parent|) && parent == "" ==>
            forall j :: 0 <= j < |path| && path[j] == '\n' && '\n' !in path[..j] ==>
              name == SearchFrom(path, "", j + 1))
  {
    var parent := ParentDir(path);
    var p0 := |parent|;
    ParentDirSplitsPath(path);
    SearchSkips(path, parent, 0, p0);
    assert LookbehindAt(path, parent, p0);
    if DotReachable(path, p0) {
      var d :| p0 <= d < |path| && path[d] == '.' && forall k :: p0 <= k < d ==> path[k] != '\n';
      MatchUpToFirstDot(path, p0, d);
    } else if parent != "" {
      if p0 < |path| {
        assert forall i :: p0 < i <= |path| ==> !LookbehindAt(path, parent, i);
        SearchSkips(path, parent, p0 + 1, |path|);
      }
    } else if '\n' !in path {
      assert forall k :: 0 <= k < |path| ==> path[k] != '.';
      SearchWithoutDot(path, parent, 0);
    } else {
      forall j | 0 <= j < |path| && path[j] == '\n' && '\n' !in path[..j]
        ensures FindBetweenDot(path, parent) == SearchFrom(path, "", j + 1)
      {
        forall k | 0 <= k < j ensures path[k] != '\n' {
          assert path[k] == path[..j][k];
        }
        assert forall i :: 0 <= i <= j ==> DotAhead(path, i).None?;
        SearchSkips(path, parent, 0, j + 1);
      }
    }
  }
}
