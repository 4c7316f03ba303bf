/** ASCII text: blanks, trimming, lower-casing, and the canonical form names are compared under. */
module AsciiText {
  /** Space, tab, line feed, vertical tab, form feed and carriage return. */
  predicate IsBlank(c: char)
    ensures IsBlank(c) <==> c as int in {32, 9, 10, 11, 12, 13}
  {
    c == ' ' || '\t' <= c <= '\r'
  }

  function LowerChar(c: char): char {
    if 'A' <= c <= 'Z' then c - 'A' + 'a' else c
  }

  function Lower(s: string): (r: string)
    ensures |r| == |s|
  {
    seq(|s|, i requires 0 <= i < |s| => LowerChar(s[i]))
  }

  function TrimLeft(s: string): string {
    if s != "" && IsBlank(s[0]) then TrimLeft(s[1..]) else s
  }

  function TrimRight(s: string): string {
    if s != "" && IsBlank(s[|s| - 1]) then TrimRight(s[..|s| - 1]) else s
  }

  /** The canonical form under which role names, permissions and subjects are compared. */
  function Normalize(s: string): string {
    Lower(TrimRight(TrimLeft(s)))
  }

  ghost predicate Trimmed(s: string) {
    s != "" ==> !IsBlank(s[0]) && !IsBlank(s[|s| - 1])
  }

  ghost predicate AllBlank(s: string) {
    forall i :: 0 <= i < |s| ==> IsBlank(s[i])
  }

  lemma {:induction false} TrimLeftStops(s: string)
    ensures TrimLeft(s) == "" || !IsBlank(TrimLeft(s)[0])
  {
    if s != "" && IsBlank(s[0]) {
      TrimLeftStops(s[1..]);
    }
  }

  lemma {:induction false} TrimRightStops(s: string)
    ensures TrimRight(s) <= s
    ensures TrimRight(s) == "" || !IsBlank(TrimRight(s)[|TrimRight(s)| - 1])
  {
    if s != "" && IsBlank(s[|s| - 1]) {
      TrimRightStops(s[..|s| - 1]);
    }
  }

  lemma {:induction false} TrimLeftDropsPadding(pad: string, s: string)
    requires AllBlank(pad)
    ensures TrimLeft(pad + s) == TrimLeft(s)
  {
    if pad == "" {
      assert pad + s == s;
    } else {
      assert (pad + s)[1..] == pad[1..] + s;
      TrimLeftDropsPadding(pad[1..], s);
    }
  }

  lemma {:induction false} TrimRightDropsPadding(s: string, pad: string)
    requires AllBlank(pad)
    ensures TrimRight(s + pad) == TrimRight(s)
  {
    if pad == "" {
      assert s + pad == s;
    } else {
      assert (s + pad)[..|s + pad| - 1] == s + pad[..|pad| - 1];
      TrimRightDropsPadding(s, pad[..|pad| - 1]);
    }
  }

  lemma TrimOfTrimmed(s: string)
    requires Trimmed(s)
    ensures TrimRight(TrimLeft(s)) == s
  {
  }

  /** Padding is trimmed away, and nothing else. */
  lemma TrimOfPadded(left: string, s: string, right: string)
    requires AllBlank(left) && AllBlank(right) && Trimmed(s)
    ensures TrimRight(TrimLeft(left + s + right)) == s
  {
    TrimLeftDropsPadding(left, s + right);
    assert left + s + right == left + (s + right);
    if s == "" {
      assert s + right == right;
      AllBlankTrimsAway(right);
    } else {
      assert (s + right)[0] == s[0];
      TrimRightDropsPadding(s, right);
      TrimOfTrimmed(s);
    }
  }

  // ---- Letter case ----

  predicate IsUpper(c: char) {
    65 <= c as int <= 90
  }

  /** One character, or an upper-case letter and its lower-case form 32 further on. */
  predicate SameLetter(c: char, d: char) {
    c == d || (IsUpper(c) && d as int == c as int + 32) || (IsUpper(d) && c as int == d as int + 32)
  }

  predicate SameButForCase(s: string, t: string) {
    |s| == |t| && forall i :: 0 <= i < |s| ==> SameLetter(s[i], t[i])
  }

  lemma LowerCharIs(c: char)
    ensures !IsUpper(LowerChar(c)) && SameLetter(c, LowerChar(c))
  {
  }

  /** Two texts have one canonical form exactly when, blanks around them aside, they differ only in case. */
  lemma NormalizeForgetsCaseAndBlanks(l: string, s: string, r: string, l': string, t: string, r': string)
    requires AllBlank(l) && AllBlank(r) && AllBlank(l') && AllBlank(r') && Trimmed(s) && Trimmed(t)
    ensures Normalize(l + s + r) == Normalize(l' + t + r') <==> SameButForCase(s, t)
  {
    TrimOfPadded(l, s, r);
    TrimOfPadded(l', t, r');
    LowerIff(s, t);
  }

  lemma LowerIff(s: string, t: string)
    ensures Lower(s) == Lower(t) <==> SameButForCase(s, t)
  {
    if Lower(s) == Lower(t) {
      assert |Lower(s)| == |Lower(t)|;
      forall i | 0 <= i < |s| ensures SameLetter(s[i], t[i]) {
        assert Lower(s)[i] == Lower(t)[i];
      }
    }
    if SameButForCase(s, t) {
      forall i | 0 <= i < |s| ensures Lower(s)[i] == Lower(t)[i] {
        assert SameLetter(s[i], t[i]);
      }
    }
  }

  /** A canonical form is the text without the blanks around it, its letters in lower case. */
  lemma NormalizeIs(l: string, s: string, r: string)
    requires AllBlank(l) && AllBlank(r) && Trimmed(s)
    ensures var n := Normalize(l + s + r);
            SameButForCase(s, n) && forall i :: 0 <= i < |n| ==> !IsUpper(n[i])
  {
    TrimOfPadded(l, s, r);
    forall i | 0 <= i < |s| ensures SameLetter(s[i], Lower(s)[i]) && !IsUpper(Lower(s)[i]) {
      LowerCharIs(s[i]);
    }
  }

  lemma {:induction false} AllBlankTrimsAway(s: string)
    requires AllBlank(s)
    ensures TrimLeft(s) == ""
  {
    if s != "" {
      AllBlankTrimsAway(s[1..]);
    }
  }

  /** A canonical form is canonical. */
  lemma NormalizeIsIdempotent(s: string)
    ensures Normalize(Normalize(s)) == Normalize(s)
    ensures Trimmed(Normalize(s))
  {
    var left := TrimLeft(s);
    var t := TrimRight(left);
    TrimLeftStops(s);
    TrimRightStops(left);
    assert t != "" ==> t[0] == left[0];
    assert Trimmed(Lower(t));
    TrimOfTrimmed(Lower(t));
    assert Lower(Lower(t)) == Lower(t);
  }
}
