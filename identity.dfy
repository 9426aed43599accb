/**
 * Construction-time validation: the mesh engine's participant id and the
 * socket.io signaling client's channel name.
 */
module Identity {

  /** Error code of a participant id the mesh engine refuses. */
  const ErrInvalidId: nat := 596850
  /** Error code of a channel name the signaling client refuses. */
  const ErrInvalidChannel: nat := 975600

  /** The class `[a-zA-Z0-9-_.@#=]` (the `-` after the range `0-9` is literal). */
  predicate IdChar(c: char)
  {
    ('a' <= c <= 'z') || ('A' <= c <= 'Z') || ('0' <= c <= '9') || c == '-' || c == '_' || c == '.' || c == '@' || c == '#' || c == '='
  }

  /**
   * `id && /^[a-zA-Z0-9-_.@#=]{1,}$/.test(id)`: one or more characters of the
   * class and nothing else (without the `m` flag, `$` matches only at the end).
   */
  predicate ValidId(id: string)
  {
    |id| >= 1 && forall i :: 0 <= i < |id| ==> IdChar(id[i])
  }

  /** The class `[a-z0-9\-]`. */
  predicate ChannelChar(c: char)
  {
    ('a' <= c <= 'z') || ('0' <= c <= '9') || c == '-'
  }

  /** The characters `.` does not match: JavaScript's line terminators. */
  predicate LineTerminator(c: char)
  {
    c == '\n' || c == '\r' || c == '\U{2028}' || c == '\U{2029}'
  }

  /** How many characters of `s` are in `[a-z0-9\-]`. */
  function ClassCount(s: string): (n: nat)
    ensures n <= |s|
    ensures n == 0 <==> forall i :: 0 <= i < |s| ==> !ChannelChar(s[i])
    ensures n == |s| <==> forall i :: 0 <= i < |s| ==> ChannelChar(s[i])
  {
    if s == [] then 0 else (if ChannelChar(s[0]) then 1 else 0) + ClassCount(s[1..])
  }

  /**
   * The plain reading of `channel && /^([a-z0-9\-].*){4,}$/.test(channel)`:
   * the first character is in the class, at least four characters are, and no
   * character is a line terminator.
   */
  predicate ValidChannel(s: string)
  {
    |s| >= 1 && ChannelChar(s[0]) && ClassCount(s) >= 4 && forall i :: 0 <= i < |s| ==> !LineTerminator(s[i])
  }

  // ---- The regular expression, read literally -----------------------------------

  /** One iteration of the group `([a-z0-9\-].*)`. */
  ghost predicate Segment(s: string)
  {
    |s| >= 1 && ChannelChar(s[0]) && forall i :: 1 <= i < |s| ==> !LineTerminator(s[i])
  }

  /** `s` is a concatenation of segments, at least `k` of them (`(...){k,}` anchored at both ends). */
  ghost predicate Repeats(s: string, k: nat)
    decreases |s|
  {
    if s == [] then k == 0
    else exists i :: 1 <= i <= |s| && Segment(s[..i]) && Repeats(s[i..], if k == 0 then 0 else k - 1)
  }

  /** The language of `^([a-z0-9\-].*){4,}$`. */
  ghost predicate ChannelRegex(s: string)
  {
    Repeats(s, 4)
  }

  /** The regular expression and the plain predicate accept the same names. */
  lemma ChannelRegexIsPlain(s: string)
    ensures ChannelRegex(s) <==> ValidChannel(s)
  {
    RepeatsIsPlain(s, 4);
  }

  ghost predicate Plain(s: string, k: nat)
  {
    if s == [] then k == 0
    else ChannelChar(s[0]) && ClassCount(s) >= k && forall i :: 0 <= i < |s| ==> !LineTerminator(s[i])
  }

  lemma RepeatsIsPlain(s: string, k: nat)
    ensures Repeats(s, k) <==> Plain(s, k)
  {
    if Repeats(s, k) { RepeatsToPlain(s, k); }
    if Plain(s, k) { PlainToRepeats(s, k); }
  }

  /** Every concatenation of at least `k` segments is a plain name with `k` class characters. */
  lemma {:induction false} RepeatsToPlain(s: string, k: nat)
    requires Repeats(s, k)
    ensures Plain(s, k)
    decreases |s|
  {
    if s != [] {
      var i :| 1 <= i <= |s| && Segment(s[..i]) && Repeats(s[i..], if k == 0 then 0 else k - 1);
      RepeatsToPlain(s[i..], if k == 0 then 0 else k - 1);
      CountSplit(s, i);
      assert ClassCount(s[..i]) >= 1 by { assert s[..i] == [s[0]] + s[..i][1..]; }
      SegmentThenLines(s, i);
    }
  }

  /** A segment followed by text without line terminators has none either. */
  lemma SegmentThenLines(s: string, i: nat)
    requires 1 <= i <= |s| && Segment(s[..i])
    requires forall j :: 0 <= j < |s[i..]| ==> !LineTerminator(s[i..][j])
    ensures forall j :: 0 <= j < |s| ==> !LineTerminator(s[j])
  {
    forall j | 0 <= j < |s| ensures !LineTerminator(s[j]) {
      if j >= i { assert s[j] == s[i..][j - i]; } else if j >= 1 { assert s[j] == s[..i][j]; }
    }
  }

  /** Every plain name with `k` class characters splits into at least `k` segments. */
  lemma {:induction false} PlainToRepeats(s: string, k: nat)
    requires Plain(s, k)
    ensures Repeats(s, k)
    decreases |s|
  {
    if s != [] {
      var k' := if k == 0 then 0 else k - 1;
      if k <= 1 {
        assert s[..|s|] == s;
        assert Repeats(s[|s|..], k');
      } else {
        var m := FirstClass(s[1..]);
        var i := m + 1;
        CountSplit(s, i);
        assert s[..i] == [s[0]] + s[1..][..m];
        CountAppend([s[0]], s[1..][..m]);
        assert ClassCount([s[0]]) == 1;
        assert s[i..][0] == s[1..][m];
        forall j | 0 <= j < |s[i..]| ensures !LineTerminator(s[i..][j]) {
          assert s[i..][j] == s[i + j];
        }
        PlainToRepeats(s[i..], k');
        assert Segment(s[..i]) by {
          forall j | 1 <= j < i ensures !LineTerminator(s[..i][j]) { assert s[..i][j] == s[j]; }
        }
      }
    }
  }

  /** A name made of lower-case letters only is a valid channel once it has four of them. */
  lemma {:induction false} LowerCaseChannel(s: string)
    requires |s| >= 4 && forall i :: 0 <= i < |s| ==> 'a' <= s[i] <= 'z'
    ensures ValidChannel(s)
  {
    LowerCaseCount(s);
  }

  lemma {:induction false} LowerCaseCount(s: string)
    requires forall i :: 0 <= i < |s| ==> 'a' <= s[i] <= 'z'
    ensures ClassCount(s) == |s|
  {
    if s != [] {
      assert forall i :: 0 <= i < |s[1..]| ==> 'a' <= s[1..][i] <= 'z' by {
        forall i | 0 <= i < |s[1..]| ensures 'a' <= s[1..][i] <= 'z' { assert s[1..][i] == s[i + 1]; }
      }
      LowerCaseCount(s[1..]);
    }
  }

  lemma {:induction false} CountAppend(a: string, b: string)
    ensures ClassCount(a + b) == ClassCount(a) + ClassCount(b)
  {
    if a == [] {
      assert a + b == b;
    } else {
      assert (a + b)[1..] == a[1..] + b;
      CountAppend(a[1..], b);
    }
  }

  lemma CountSplit(s: string, i: nat)
    requires i <= |s|
    ensures ClassCount(s) == ClassCount(s[..i]) + ClassCount(s[i..])
  {
    assert s == s[..i] + s[i..];
    CountAppend(s[..i], s[i..]);
  }

  /** The first class character of a string that has one; none comes before it. */
  lemma {:induction false} FirstClass(t: string) returns (m: nat)
    requires ClassCount(t) >= 1
    ensures m < |t| && ChannelChar(t[m]) && ClassCount(t[..m]) == 0
  {
    if ChannelChar(t[0]) {
      m := 0;
    } else {
      var m' := FirstClass(t[1..]);
      m := m' + 1;
      assert t[..m] == [t[0]] + t[1..][..m'];
      CountAppend([t[0]], t[1..][..m']);
    }
  }
}
