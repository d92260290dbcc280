/** The string helpers the presets and the tool keys rely on. Only ASCII letters are folded. */
module Text {

  /** The characters with Unicode's White_Space property. */
  predicate IsBlank(c: char) {
    || c == ' ' || '\U{0009}' <= c <= '\U{000D}' || c == '\U{0085}' || c == '\U{00A0}'
    || c == '\U{1680}' || '\U{2000}' <= c <= '\U{200A}' || c == '\U{2028}' || c == '\U{2029}'
    || c == '\U{202F}' || c == '\U{205F}' || c == '\U{3000}'
  }

  function TrimLeft(s: string): string {
    if s != "" && IsBlank(s[0]) then TrimLeft(s[1..]) else s
  }

  function TrimRight(s: string): string {
    if s != "" && IsBlank(s[|s| - 1]) then TrimRight(s[..|s| - 1]) else s
  }

  function TrimSpace(s: string): string {
    TrimRight(TrimLeft(s))
  }

  function LowerChar(c: char): char {
    if 'A' <= c <= 'Z' then c - 'A' + 'a' else c
  }

  function ToLower(s: string): string {
    seq(|s|, i requires 0 <= i < |s| => LowerChar(s[i]))
  }

  /** No blank at either end. */
  predicate Trimmed(s: string) {
    s != "" ==> !IsBlank(s[0]) && !IsBlank(s[|s| - 1])
  }

  lemma {:induction false} TrimLeftDropsBlanks(s: string)
    ensures var t := TrimLeft(s); |t| <= |s| && t == s[|s| - |t|..]
    ensures TrimLeft(s) != "" ==> !IsBlank(TrimLeft(s)[0])
    ensures forall i :: 0 <= i < |s| - |TrimLeft(s)| ==> IsBlank(s[i])
  {
    if s != "" && IsBlank(s[0]) {
      TrimLeftDropsBlanks(s[1..]);
      assert forall i :: 0 < i < |s| ==> s[i] == s[1..][i - 1];
    }
  }

  lemma {:induction false} TrimRightDropsBlanks(s: string)
    ensures TrimRight(s) <= s
    ensures TrimRight(s) != "" ==> !IsBlank(TrimRight(s)[|TrimRight(s)| - 1])
    ensures forall i :: |TrimRight(s)| <= i < |s| ==> IsBlank(s[i])
  {
    if s != "" && IsBlank(s[|s| - 1]) {
      TrimRightDropsBlanks(s[..|s| - 1]);
    }
  }

  /** Trimming removes blanks only, and every blank at the ends: it leaves a trimmed string
      alone, so it is idempotent. */
  lemma TrimSpaceTrims(s: string)
    ensures Trimmed(TrimSpace(s))
    ensures Trimmed(s) ==> TrimSpace(s) == s
    ensures exists i, j :: 0 <= i <= j <= |s| && TrimSpace(s) == s[i..j]
                           && (forall k :: 0 <= k < i || j <= k < |s| ==> IsBlank(s[k]))
  {
    TrimLeftDropsBlanks(s);
    var t := TrimLeft(s);
    TrimRightDropsBlanks(t);
    var i := |s| - |t|;
    assert TrimSpace(s) == s[i..i + |TrimRight(t)|];
    assert forall k :: i <= k < |s| ==> s[k] == t[k - i];
  }

  predicate StartsAt(s: string, part: string, i: int) {
    0 <= i <= |s| - |part| && s[i..i + |part|] == part
  }

  predicate Contains(s: string, part: string) {
    exists i :: 0 <= i <= |s| && StartsAt(s, part, i)
  }
}
