/**
 The agent's authorized_keys file (pkg/agent/known_hosts.go): a key is trimmed and appended as a line,
 unless the file already contains it as a substring.
*/
module AuthorizedKeys {
  import opened Options

  // unicode.IsSpace
  predicate IsSpace(c: char) {
    || '\t' <= c <= '\r' || c == ' ' || c == 0x85 as char || c == 0xA0 as char || c == 0x1680 as char
    || 0x2000 as char <= c <= 0x200A as char || c == 0x2028 as char || c == 0x2029 as char
    || c == 0x202F as char || c == 0x205F as char || c == 0x3000 as char
  }

  function TrimLeft(s: string): (r: string)
    ensures |r| <= |s| && r == s[|s| - |r|..]
    ensures r != "" ==> !IsSpace(r[0])
  {
    if s != "" && IsSpace(s[0]) then TrimLeft(s[1..]) else s
  }

  function TrimRight(s: string): (r: string)
    ensures |r| <= |s| && r == s[..|r|]
    ensures r != "" ==> !IsSpace(r[|r| - 1])
  {
    if s != "" && IsSpace(s[|s| - 1]) then TrimRight(s[..|s| - 1]) else s
  }

  // strings.TrimSpace
  function Trim(s: string): string {
    TrimRight(TrimLeft(s))
  }

  predicate Blank(s: string) {
    forall i :: 0 <= i < |s| ==> IsSpace(s[i])
  }

  // Trimming takes the white space off both ends, and nothing else.
  lemma TrimParts(s: string) returns (pre: string, post: string)
    ensures s == pre + Trim(s) + post && Blank(pre) && Blank(post)
    ensures Trim(s) != "" ==> !IsSpace(Trim(s)[0]) && !IsSpace(Trim(s)[|Trim(s)| - 1])
  {
    hide IsSpace, Blank, TrimLeft, TrimRight;
    var l := TrimLeft(s);
    var r := TrimRight(l);
    pre, post := s[..|s| - |l|], l[|r|..];
    LeftIsBlank(s);
    RightIsBlank(l);
    ThreeParts(s, |s| - |l|, |r|);
    assert Trim(s) == r && s[|s| - |l|..] == l && l[..|r|] == r;
  }

  lemma ThreeParts(s: string, i: nat, j: nat)
    requires i <= |s| && j <= |s| - i
    ensures s == s[..i] + s[i..][..j] + s[i..][j..]
  {
  }

  lemma {:induction false} LeftIsBlank(s: string)
    ensures Blank(s[..|s| - |TrimLeft(s)|])
  {
    if s != "" && IsSpace(s[0]) {
      LeftIsBlank(s[1..]);
      var rest := s[1..][..|s| - 1 - |TrimLeft(s)|];
      assert s[..|s| - |TrimLeft(s)|] == [s[0]] + rest;
    }
    hide IsSpace;
  }

  lemma {:induction false} RightIsBlank(s: string)
    ensures Blank(s[|TrimRight(s)|..])
  {
    if s != "" && IsSpace(s[|s| - 1]) {
      var n := |TrimRight(s)|;
      RightIsBlank(s[..|s| - 1]);
      assert s[n..] == s[..|s| - 1][n..] + [s[|s| - 1]];
    }
    hide IsSpace;
  }

  predicate At(s: string, sub: string, i: int) {
    0 <= i <= |s| - |sub| && s[i..i + |sub|] == sub
  }

  // strings.Contains
  ghost predicate Contains(s: string, sub: string) {
    exists i :: At(s, sub, i)
  }

  // The file after appendAuthorizedKey(key); None is a file that does not exist yet.
  ghost function Append(file: Option<string>, key: string): Option<string> {
    var k := Trim(key);
    if k == "" then file
    else if file.Some? && Contains(file.value, k) then file
    else Some(Text(file) + k + "\n")
  }

  function Text(file: Option<string>): string {
    if file.Some? then file.value else ""
  }

  // How the file operations go: whether the directory is there, whether the file can be read and opened, and how
  // many characters the write gets out.
  datatype Disk = Disk(hasDir: bool, canRead: bool, canOpen: bool, written: nat)

  function Min(a: nat, b: nat): nat {
    if a < b then a else b
  }

  // The file after appendAuthorizedKey(key) on such a disk, and whether the call reports success.
  ghost function AppendOn(file: Option<string>, key: string, d: Disk): (Option<string>, bool) {
    var k := Trim(key);
    if k == "" then (file, true)
    else if !d.hasDir then (file, false)
    else if d.canRead && file.Some? && Contains(file.value, k) then (file, true)
    else if !d.canOpen then (file, false)
    else
      var n := Min(d.written, |k| + 1);
      (Some(Text(file) + (k + "\n")[..n]), n == |k| + 1)
  }

  class KeyFile {
    var contents: Option<string>

    // known_hosts.go:9-35; ok is false when the call returns an error.
    method AppendAuthorizedKey(key: string, d: Disk) returns (ok: bool)
      modifies this
      ensures (contents, ok) == AppendOn(old(contents), key, d)
    {
      var k := Trim(key);
      if k == "" {
        return true;
      }
      if !d.hasDir {
        return false;
      }
      if contents.Some? && d.canRead {
        var found := Find(contents.value, k);
        if found {
          return true;
        }
      }
      if !d.canOpen {
        return false;
      }
      var line := k + "\n";
      var n := Min(d.written, |line|);
      contents := Some(Text(contents) + line[..n]);
      return n == |line|;
    }
  }

  method Find(s: string, sub: string) returns (found: bool)
    ensures found <==> Contains(s, sub)
  {
    var i := 0;
    while i <= |s| - |sub|
      invariant 0 <= i
      invariant forall j :: j < i ==> !At(s, sub, j)
    {
      if s[i..i + |sub|] == sub {
        assert At(s, sub, i);
        return true;
      }
      i := i + 1;
    }
    return false;
  }

  // Every operation of a call with this key succeeds.
  ghost predicate Sound(d: Disk, key: string) {
    d.hasDir && d.canRead && d.canOpen && d.written > |Trim(key)|
  }

  // On such a disk a call reports success, and a non-blank key that is no part of the file is appended as a line,
  // also to a file that did not exist.
  lemma SoundAppends(file: Option<string>, key: string, d: Disk)
    requires Sound(d, key)
    ensures AppendOn(file, key, d) == (Append(file, key), true)
  {
    var k := Trim(key);
    hide Contains, Trim;
    assert Text(file) + (k + "\n") == Text(file) + k + "\n";
    assert (k + "\n")[..|k| + 1] == k + "\n";
  }

  // The file after a sequence of calls of appendAuthorizedKey in which no file operation fails.
  ghost function AppendAll(file: Option<string>, keys: seq<string>): Option<string> {
    if keys == [] then file
    else
      var last := keys[|keys| - 1];
      AppendOn(AppendAll(file, keys[..|keys| - 1]), last, Disk(true, true, true, |Trim(last)| + 1)).0
  }

  lemma AppendsLast(file: Option<string>, keys: seq<string>, last: string)
    ensures AppendAll(file, keys + [last]) == Append(AppendAll(file, keys), last)
  {
    hide AppendOn, Append, Trim;
    var all := keys + [last];
    assert all[..|all| - 1] == keys && all[|all| - 1] == last;
    SoundAppends(AppendAll(file, keys), last, Disk(true, true, true, |Trim(last)| + 1));
  }

  // ---------- Lines ----------

  ghost function Join(lines: seq<string>): string {
    if lines == [] then "" else Join(lines[..|lines| - 1]) + lines[|lines| - 1] + "\n"
  }

  predicate NoNewline(s: string) {
    '\n' !in s
  }

  ghost predicate GoodLines(lines: seq<string>) {
    && (forall i :: 0 <= i < |lines| ==> NoNewline(lines[i]) && lines[i] != "")
    && (forall i, j :: 0 <= i < j < |lines| ==> lines[i] != lines[j])
  }

  // The lines the file holds after a sequence of keys.
  ghost function LinesAfter(keys: seq<string>): (lines: seq<string>) {
    if keys == [] then []
    else
      var before := LinesAfter(keys[..|keys| - 1]);
      var k := Trim(keys[|keys| - 1]);
      if k == "" || Contains(Join(before), k) then before else before + [k]
  }

  lemma {:induction false} FileIsItsLines(keys: seq<string>)
    ensures Text(AppendAll(None, keys)) == Join(LinesAfter(keys))
    ensures AppendAll(None, keys).None? ==> LinesAfter(keys) == []
  {
    if keys != [] {
      var before, k := keys[..|keys| - 1], Trim(keys[|keys| - 1]);
      assert keys == before + [keys[|keys| - 1]];
      AppendsLast(None, before, keys[|keys| - 1]);
      FileIsItsLines(before);
      hide AppendAll, AppendOn, Trim;
      var lines := LinesAfter(before);
      if k != "" && AppendAll(None, before).None? {
        assert Join(lines) == "";
        assert !Contains("", k);
      }
      assert (lines + [k])[..|lines + [k]| - 1] == lines;
    }
  }

  lemma ContainsSelf(a: string, b: string, c: string)
    ensures Contains(a + b + c, b)
  {
    assert (a + b + c)[|a|..|a| + |b|] == b;
    assert At(a + b + c, b, |a|);
  }

  lemma ContainsGrows(s: string, t: string, sub: string)
    requires Contains(s, sub)
    ensures Contains(s + t, sub)
  {
    var i :| At(s, sub, i);
    assert (s + t)[i..i + |sub|] == sub;
    assert At(s + t, sub, i);
  }

  lemma {:induction false} LineIsContained(lines: seq<string>, i: nat)
    requires i < |lines|
    ensures Contains(Join(lines), lines[i])
  {
    var front, last := lines[..|lines| - 1], lines[|lines| - 1];
    if i == |lines| - 1 {
      ContainsSelf(Join(front), last, "\n");
    } else {
      LineIsContained(front, i);
      ContainsGrows(Join(front), last + "\n", lines[i]);
      assert Join(front) + (last + "\n") == Join(lines);
    }
  }

  // A newline-free piece of the file lies within one of its lines.
  lemma {:induction false} WithinOneLine(lines: seq<string>, k: string)
    requires NoNewline(k) && k != "" && Contains(Join(lines), k)
    ensures exists i :: 0 <= i < |lines| && Contains(lines[i], k)
  {
    if lines == [] {
    } else {
      var front, last := Join(lines[..|lines| - 1]), lines[|lines| - 1];
      var s := front + last + "\n";
      var i :| At(s, k, i);
      if i + |k| <= |front| {
        assert front[i..i + |k|] == s[i..i + |k|];
        assert At(front, k, i);
        WithinOneLine(lines[..|lines| - 1], k);
        var j :| 0 <= j < |lines| - 1 && Contains(lines[..|lines| - 1][j], k);
        assert Contains(lines[j], k);
      } else {
        JoinEndsLine(lines[..|lines| - 1]);
        PieceOfLast(front, last, k, i);
        assert Contains(lines[|lines| - 1], k);
      }
    }
  }

  predicate EndsLine(s: string) {
    s == "" || s[|s| - 1] == '\n'
  }

  lemma JoinEndsLine(lines: seq<string>)
    ensures EndsLine(Join(lines))
  {
  }

  // A newline-free piece cannot span the newline before or after the last line.
  lemma NotAcross(front: string, last: string, k: string, i: nat)
    requires NoNewline(k) && k != "" && EndsLine(front) && |front| < i + |k| <= |front| + |last| + 1
    requires var s := front + last + "\n"; forall q :: i <= q < i + |k| ==> s[q] == k[q - i]
    ensures |front| <= i && i + |k| <= |front| + |last|
  {
    var s := front + last + "\n";
    assert front == "" || s[|front| - 1] == '\n';
    assert s[|front| + |last|] == '\n';
  }

  lemma PieceOfLast(front: string, last: string, k: string, i: nat)
    requires NoNewline(k) && k != "" && EndsLine(front)
    requires At(front + last + "\n", k, i) && i + |k| > |front|
    ensures Contains(last, k)
  {
    var s := front + last + "\n";
    assert forall q :: i <= q < i + |k| ==> s[q] == s[i..i + |k|][q - i];
    NotAcross(front, last, k, i);
    var j := i - |front|;
    assert last[j..j + |k|] == s[i..i + |k|];
    assert At(last, k, j);
  }

  predicate NewlineFree(keys: seq<string>) {
    forall i :: 0 <= i < |keys| ==> NoNewline(keys[i])
  }

  lemma TrimPiece(s: string)
    ensures NoNewline(s) ==> NoNewline(Trim(s))
    ensures Contains(s, Trim(s))
  {
    var l := TrimLeft(s);
    var r := TrimRight(l);
    assert s[|s| - |l|..|s| - |l| + |r|] == r;
    assert At(s, r, |s| - |l|);
  }

  // ---------- Main results ----------

  // From an empty start, whatever newline-free keys arrive: all lines of the file are distinct.
  lemma {:induction false} LinesDistinct(keys: seq<string>)
    requires NewlineFree(keys)
    ensures GoodLines(LinesAfter(keys))
  {
    if keys != [] {
      var before, key := keys[..|keys| - 1], keys[|keys| - 1];
      LinesDistinct(before);
      TrimPiece(key);
      var lines, k := LinesAfter(before), Trim(key);
      if k != "" && !Contains(Join(lines), k) {
        forall i | 0 <= i < |lines| ensures lines[i] != k {
          LineIsContained(lines, i);
        }
      }
    }
  }

  // Every non-blank key of the sequence is part of some line.
  lemma {:induction false} KeysPresent(keys: seq<string>, i: nat)
    requires NewlineFree(keys) && i < |keys| && Trim(keys[i]) != ""
    ensures Contains(Join(LinesAfter(keys)), Trim(keys[i]))
    ensures exists j :: 0 <= j < |LinesAfter(keys)| && Contains(LinesAfter(keys)[j], Trim(keys[i]))
  {
    KeyInFile(keys, i);
    TrimPiece(keys[i]);
    WithinOneLine(LinesAfter(keys), Trim(keys[i]));
  }

  lemma {:induction false} KeyInFile(keys: seq<string>, i: nat)
    requires i < |keys| && Trim(keys[i]) != ""
    ensures Contains(Join(LinesAfter(keys)), Trim(keys[i]))
  {
    var before, k := keys[..|keys| - 1], Trim(keys[|keys| - 1]);
    var lines := LinesAfter(before);
    LinesGrow(lines, k);
    if i == |keys| - 1 {
      ContainsSelf(Join(lines), k, "\n");
    } else {
      KeyInFile(before, i);
      ContainsGrows(Join(lines), k + "\n", Trim(keys[i]));
      assert Join(lines) + (k + "\n") == Join(lines) + k + "\n";
    }
  }

  lemma LinesGrow(lines: seq<string>, k: string)
    ensures Join(lines + [k]) == Join(lines) + k + "\n"
  {
    assert (lines + [k])[..|lines + [k]| - 1] == lines;
  }

  lemma AppendOnlyAdds(file: Option<string>, key: string)
    ensures Text(file) <= Text(Append(file, key))
  {
    hide Trim, Contains;
  }

  // Each file is a prefix of every later one.
  lemma {:induction false} FileOnlyGrows(file: Option<string>, keys: seq<string>, more: seq<string>)
    ensures Text(AppendAll(file, keys)) <= Text(AppendAll(file, keys + more))
  {
    hide Append, AppendAll, AppendOn;
    if more == [] {
      assert keys + more == keys;
    } else {
      var front, last := more[..|more| - 1], more[|more| - 1];
      FileOnlyGrows(file, keys, front);
      AppendsLast(file, keys + front, last);
      AppendOnlyAdds(AppendAll(file, keys + front), last);
      assert keys + more == keys + front + [last];
    }
  }

  // Replaying keys that have arrived before, in any order and any number of times, changes nothing.
  lemma {:induction false} ReplayChangesNothing(keys: seq<string>, replay: seq<string>)
    requires forall r :: r in replay ==> r in keys
    ensures AppendAll(None, keys + replay) == AppendAll(None, keys)
  {
    hide Append, AppendAll, AppendOn;
    if replay == [] {
      assert keys + replay == keys;
    } else {
      var front, last := replay[..|replay| - 1], replay[|replay| - 1];
      assert forall r :: r in front ==> r in replay;
      ReplayChangesNothing(keys, front);
      AppendsLast(None, keys + front, last);
      assert keys + replay == keys + front + [last];
      assert last in replay;
      var i :| 0 <= i < |keys| && keys[i] == last;
      KeyAgain(keys, i);
    }
  }

  lemma KeyAgain(keys: seq<string>, i: nat)
    requires i < |keys|
    ensures Append(AppendAll(None, keys), keys[i]) == AppendAll(None, keys)
  {
    hide Trim, Contains, Join, LinesAfter, AppendAll;
    if Trim(keys[i]) != "" {
      KeyInFile(keys, i);
      FileIsItsLines(keys);
      NoneIsEmpty(Trim(keys[i]));
    }
  }

  lemma NoneIsEmpty(k: string)
    requires k != ""
    ensures !Contains("", k)
  {
  }

  lemma {:induction false} LinesAreKeys(keys: seq<string>, l: string)
    requires l in LinesAfter(keys)
    ensures exists i :: 0 <= i < |keys| && Trim(keys[i]) == l
  {
    var before, last := keys[..|keys| - 1], keys[|keys| - 1];
    if l in LinesAfter(before) {
      LinesAreKeys(before, l);
      var i :| 0 <= i < |before| && Trim(before[i]) == l;
      assert keys[i] == before[i];
    } else {
      assert Trim(last) == l;
    }
  }

  lemma ContainsTransitive(s: string, t: string, u: string)
    requires Contains(s, t) && Contains(t, u)
    ensures Contains(s, u)
  {
    var i :| At(s, t, i);
    var j :| At(t, u, j);
    forall q | 0 <= q < |u| ensures s[i + j..i + j + |u|][q] == u[q] {
      assert t[j..j + |u|][q] == u[q] && s[i..i + |t|][j + q] == t[j + q];
    }
    assert s[i + j..i + j + |u|] == u;
    assert At(s, u, i + j);
  }

  ghost predicate InSomeKey(keys: seq<string>, k: string) {
    exists j :: 0 <= j < |keys| && Contains(Trim(keys[j]), k)
  }

  // A piece is in the file exactly if it is part of some key that arrived.
  lemma InFileIff(keys: seq<string>, k: string)
    requires NewlineFree(keys) && NoNewline(k) && k != ""
    ensures Contains(Join(LinesAfter(keys)), k) <==> InSomeKey(keys, k)
  {
    var lines := LinesAfter(keys);
    if Contains(Join(lines), k) {
      WithinOneLine(lines, k);
      var l :| 0 <= l < |lines| && Contains(lines[l], k);
      LinesAreKeys(keys, lines[l]);
    }
    if j :| 0 <= j < |keys| && Contains(Trim(keys[j]), k) {
      if Trim(keys[j]) == "" { NoneIsEmpty(k); }
      KeyInFile(keys, j);
      ContainsTransitive(Join(lines), Trim(keys[j]), k);
    }
  }

  // Whether a key has a line of its own is settled when it arrives first.
  lemma {:induction false} SettledAtFirst(keys: seq<string>, i: nat)
    requires i < |keys| && Trim(keys[i]) != ""
    ensures Trim(keys[i]) in LinesAfter(keys) <==> Trim(keys[i]) in LinesAfter(keys[..i + 1])
  {
    hide Trim, Contains, Join;
    if i + 1 < |keys| {
      var before := keys[..|keys| - 1];
      SettledAtFirst(before, i);
      assert before[..i + 1] == keys[..i + 1] && before[i] == keys[i];
      KeyInFile(before, i);
    } else {
      assert keys[..i + 1] == keys;
    }
  }

  // For every sequence of keys: a key ends up on a line of its own if and only if no key that came before its
  // first arrival contains it.
  lemma OwnLineIff(keys: seq<string>, i: nat)
    requires NewlineFree(keys) && i < |keys| && Trim(keys[i]) != ""
    requires forall j :: 0 <= j < i ==> Trim(keys[j]) != Trim(keys[i])
    ensures Trim(keys[i]) in LinesAfter(keys) <==> !InSomeKey(keys[..i], Trim(keys[i]))
  {
    hide Trim, Contains, Join, LinesAfter, InSomeKey;
    var before, k := keys[..i], Trim(keys[i]);
    SettledAtFirst(keys, i);
    TrimPiece(keys[i]);
    InFileIff(before, k);
    assert keys[..i + 1] == before + [keys[i]];
    if k in LinesAfter(before) { LinesAreKeys(before, k); }
    LineAtFirst(before, keys[i]);
  }

  lemma LineAtFirst(before: seq<string>, key: string)
    requires Trim(key) != "" && Trim(key) !in LinesAfter(before)
    ensures Trim(key) in LinesAfter(before + [key]) <==> !Contains(Join(LinesAfter(before)), Trim(key))
  {
    hide Trim, Contains, Join;
    assert (before + [key])[..|before + [key]| - 1] == before;
  }

  lemma TrimNothing(s: string)
    requires s != "" && !IsSpace(s[0]) && !IsSpace(s[|s| - 1])
    ensures Trim(s) == s
  {
  }

  // For example, a key that an earlier line extends with a comment is never written.
  lemma ShorterKeySkipped(k: string, comment: string)
    requires k != "" && !IsSpace(k[0]) && !IsSpace(k[|k| - 1]) && comment != "" && !IsSpace(comment[|comment| - 1])
    ensures LinesAfter([k + comment, k]) == [k + comment]
  {
    var a := k + comment;
    TrimNothing(a);
    TrimNothing(k);
    assert [a, k][..1] == [a] && [a][..0] == [];
    assert LinesAfter([]) == [] && Join([]) == "";
    assert [] + [a] == [a];
    LinesGrow([], a);
    ContainsSelf("", k, comment + "\n");
    assert "" + k + (comment + "\n") == Join([a]);
    hide IsSpace, Trim, Contains, Join;
  }

  // ---------- When file operations fail ----------

  // A call fails exactly if the key is not blank and not seen in the file, and an operation it then needs fails;
  // what it leaves in the file then is a proper part of the line, possibly nothing.
  lemma CallFailsIff(file: Option<string>, key: string, d: Disk)
    ensures var k, seen := Trim(key), d.canRead && file.Some? && Contains(file.value, Trim(key));
            !AppendOn(file, key, d).1
            <==> k != "" && (!d.hasDir || (!seen && !(d.canOpen && d.written > |k|)))
    ensures !AppendOn(file, key, d).1 ==>
              var k := Trim(key);
              exists n :: 0 <= n <= |k| && Text(AppendOn(file, key, d).0) == Text(file) + (k + "\n")[..n]
    ensures !AppendOn(file, key, d).1 && d.hasDir && d.canOpen ==>
              var k := Trim(key);
              AppendOn(file, key, d).0 == Some(Text(file) + (k + "\n")[..d.written])
  {
    hide Contains, Trim;
    var k := Trim(key);
    assert Text(file) == Text(file) + (k + "\n")[..0];
  }

  datatype Call = Call(key: string, disk: Disk)

  // The file after a sequence of calls, each with its own luck.
  ghost function CallAll(file: Option<string>, calls: seq<Call>): Option<string> {
    if calls == [] then file
    else
      var last := calls[|calls| - 1];
      AppendOn(CallAll(file, calls[..|calls| - 1]), last.key, last.disk).0
  }

  lemma LineAdded(t: string, k: string, n: nat)
    requires n <= |k| + 1
    ensures t <= t + (k + "\n")[..n]
    ensures n == |k| + 1 ==> Contains(t + (k + "\n")[..n], k)
  {
    if n == |k| + 1 {
      ContainsSelf(t, k, "\n");
      assert t + (k + "\n")[..n] == t + k + "\n";
    }
  }

  lemma CallKeepsText(file: Option<string>, key: string, d: Disk)
    ensures Text(file) <= Text(AppendOn(file, key, d).0)
    ensures AppendOn(file, key, d).1 && Trim(key) != "" ==> Contains(Text(AppendOn(file, key, d).0), Trim(key))
  {
    hide Contains, Trim;
    LineAdded(Text(file), Trim(key), Min(d.written, |Trim(key)| + 1));
  }

  lemma {:induction false} NothingIsLost(file: Option<string>, calls: seq<Call>, more: seq<Call>)
    ensures Text(CallAll(file, calls)) <= Text(CallAll(file, calls + more))
  {
    hide AppendOn;
    if more == [] {
      assert calls + more == calls;
    } else {
      var front, last := more[..|more| - 1], more[|more| - 1];
      NothingIsLost(file, calls, front);
      assert (calls + more)[..|calls + more| - 1] == calls + front;
      assert (calls + more)[|calls + more| - 1] == last;
      CallKeepsText(CallAll(file, calls + front), last.key, last.disk);
    }
  }

  // Whatever fails before and after: once a call with a non-blank key reports success, the file contains that
  // key ever after.
  lemma SuccessLasts(file: Option<string>, calls: seq<Call>, call: Call, more: seq<Call>)
    requires Trim(call.key) != "" && AppendOn(CallAll(file, calls), call.key, call.disk).1
    ensures Contains(Text(CallAll(file, calls + [call] + more)), Trim(call.key))
  {
    hide AppendOn, Contains, Trim;
    var upto := calls + [call];
    assert upto[..|upto| - 1] == calls && upto[|upto| - 1] == call;
    CallKeepsText(CallAll(file, calls), call.key, call.disk);
    NothingIsLost(file, upto, more);
    var t, t' := Text(CallAll(file, upto)), Text(CallAll(file, upto + more));
    assert t + t'[|t|..] == t';
    ContainsGrows(t, t'[|t|..], Trim(call.key));
  }

  // A call that reports success has done what it does on a sound disk, except when it could not read a file that
  // has the key already: then it adds the key again.
  lemma SuccessIsAppendIff(file: Option<string>, key: string, d: Disk)
    requires AppendOn(file, key, d).1
    ensures AppendOn(file, key, d).0 == Append(file, key)
            <==> d.canRead || Trim(key) == "" || file.None? || !Contains(file.value, Trim(key))
  {
    var k := Trim(key);
    hide Contains, Trim;
    assert Text(file) + (k + "\n") == Text(file) + k + "\n";
    assert (k + "\n")[..|k| + 1] == k + "\n";
  }
}
