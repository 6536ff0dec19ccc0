/** `generateTemporaryPassword` of apps/crm/src/lib/users.ts: one character
    from each of the four classes, twelve from their union, then an in-place
    Fisher–Yates shuffle of the sixteen. The values `crypto.randomInt`
    returns are a parameter, `Draws`, in call order. */
module TemporaryPassword {
  import opened Password

  const Uppercase := "ABCDEFGHIJKLMNOPQRSTUVWXYZ"
  const Lowercase := "abcdefghijklmnopqrstuvwxyz"
  const Numbers := "0123456789"
  const Symbols := "!@#$%^&*()_+-=[]{}|;:,.<>/?"
  const AllChars := Uppercase + Lowercase + Numbers + Symbols

  const Length: nat := 16

  /** The random draws: one index into each class, twelve indices into the
      union, and for the shuffle step at position `15 - t` the index
      `swaps[t]`, drawn from `[0, 15 - t]`. */
  datatype Draws = Draws(required: seq<nat>, remaining: seq<nat>, swaps: seq<nat>)

  predicate ValidSwaps(swaps: seq<nat>) {
    |swaps| == Length - 1 && forall t :: 0 <= t < |swaps| ==> swaps[t] <= Length - 1 - t
  }

  /** Every draw lies in the range `crypto.randomInt` was asked for. */
  predicate ValidDraws(d: Draws) {
    && |d.required| == 4
    && d.required[0] < |Uppercase| && d.required[1] < |Lowercase|
    && d.required[2] < |Numbers| && d.required[3] < |Symbols|
    && |d.remaining| == Length - 4
    && (forall k :: 0 <= k < |d.remaining| ==> d.remaining[k] < |AllChars|)
    && ValidSwaps(d.swaps)
  }

  /** The characters of `alphabet` at the drawn indices, in draw order. */
  function Drawn(alphabet: string, indices: seq<nat>): (r: string)
    requires forall k :: 0 <= k < |indices| ==> indices[k] < |alphabet|
    ensures |r| == |indices|
    ensures forall k :: 0 <= k < |indices| ==> r[k] == alphabet[indices[k]]
  {
    if indices == [] then [] else [alphabet[indices[0]]] + Drawn(alphabet, indices[1..])
  }

  /** The sixteen characters before the shuffle: the four required ones,
      then the twelve drawn from the union. */
  function Unshuffled(d: Draws): (r: string)
    requires ValidDraws(d)
    ensures |r| == Length
  {
    [Uppercase[d.required[0]], Lowercase[d.required[1]], Numbers[d.required[2]], Symbols[d.required[3]]]
    + Drawn(AllChars, d.remaining)
  }

  function Swap(s: string, i: nat, j: nat): (r: string)
    requires i < |s| && j < |s|
    ensures |r| == |s| && multiset(r) == multiset(s)
    ensures r[i] == s[j] && r[j] == s[i]
    ensures forall k :: 0 <= k < |s| && k != i && k != j ==> r[k] == s[k]
  {
    s[i := s[j]][j := s[i]]
  }

  /** The first `n` steps of the shuffle: step `t` swaps position
      `15 - t` with position `swaps[t]`. */
  function Shuffle(s: string, swaps: seq<nat>, n: nat): (r: string)
    requires |s| == Length && ValidSwaps(swaps) && n <= |swaps|
    ensures |r| == Length
    decreases n
  {
    if n == 0 then s
    else Swap(Shuffle(s, swaps, n - 1), Length - n, swaps[n - 1])
  }

  /** The shuffle only rearranges: it keeps every character and its count. */
  lemma {:induction false} ShufflePermutes(s: string, swaps: seq<nat>, n: nat)
    requires |s| == Length && ValidSwaps(swaps) && n <= |swaps|
    ensures multiset(Shuffle(s, swaps, n)) == multiset(s)
    decreases n
  {
    if n > 0 {
      ShufflePermutes(s, swaps, n - 1);
    }
  }

  /** Every character drawn lies in the union of the four classes. */
  lemma {:induction false} UnshuffledFromAllChars(d: Draws)
    requires ValidDraws(d)
    ensures forall k :: 0 <= k < Length ==> Unshuffled(d)[k] in AllChars
  {
    var u := Unshuffled(d);
    assert u[0] in Uppercase && u[1] in Lowercase && u[2] in Numbers && u[3] in Symbols;
    forall k | 4 <= k < Length ensures u[k] in AllChars {
      assert u[k] == AllChars[d.remaining[k - 4]];
    }
  }

  lemma UppercaseIsUpper(i: nat)
    requires i < |Uppercase|
    ensures IsUpper(Uppercase[i])
  {
    assert Uppercase == ['A', 'B', 'C', 'D', 'E', 'F', 'G', 'H', 'I', 'J', 'K', 'L', 'M',
                         'N', 'O', 'P', 'Q', 'R', 'S', 'T', 'U', 'V', 'W', 'X', 'Y', 'Z'];
  }

  lemma LowercaseIsLower(i: nat)
    requires i < |Lowercase|
    ensures IsLower(Lowercase[i])
  {
    assert Lowercase == ['a', 'b', 'c', 'd', 'e', 'f', 'g', 'h', 'i', 'j', 'k', 'l', 'm',
                         'n', 'o', 'p', 'q', 'r', 's', 't', 'u', 'v', 'w', 'x', 'y', 'z'];
  }

  lemma NumbersAreDigits(i: nat)
    requires i < |Numbers|
    ensures IsDigit(Numbers[i])
  {
    assert Numbers == ['0', '1', '2', '3', '4', '5', '6', '7', '8', '9'];
  }

  lemma SymbolsAreSpecial(i: nat)
    requires i < |Symbols|
    ensures IsSpecial(Symbols[i])
  {
    assert Symbols == ['!', '@', '#', '$', '%', '^', '&', '*', '(', ')', '_', '+', '-', '=',
                       '[', ']', '{', '}', '|', ';', ':', ',', '.', '<', '>', '/', '?'];
  }

  /** The four required characters make the unshuffled password compliant. */
  lemma {:induction false} UnshuffledCompliant(d: Draws)
    requires ValidDraws(d)
    ensures Compliant(Unshuffled(d))
  {
    var u := Unshuffled(d);
    UppercaseIsUpper(d.required[0]);
    LowercaseIsLower(d.required[1]);
    NumbersAreDigits(d.required[2]);
    SymbolsAreSpecial(d.required[3]);
    assert IsUpper(u[0]) && IsLower(u[1]) && IsDigit(u[2]) && IsSpecial(u[3]);
  }

  /** Each class rule depends only on which characters occur, so a
      rearrangement keeps a password compliant. */
  lemma {:induction false} CompliantUnderPermutation(p: string, q: string)
    requires multiset(p) == multiset(q) && Compliant(q)
    ensures Compliant(p)
  {
    Utf16LengthOfPermutation(p, q);
    var i0 :| 0 <= i0 < |q| && IsUpper(q[i0]);
    var i1 :| 0 <= i1 < |q| && IsLower(q[i1]);
    var i2 :| 0 <= i2 < |q| && IsDigit(q[i2]);
    var i3 :| 0 <= i3 < |q| && IsSpecial(q[i3]);
    assert q[i0] in multiset(q) && q[i1] in multiset(q) && q[i2] in multiset(q) && q[i3] in multiset(q);
    assert q[i0] in p && q[i1] in p && q[i2] in p && q[i3] in p;
  }

  /** `generateTemporaryPassword`: sixteen characters, all from the four
      classes, a rearrangement of the drawn ones, and always compliant with
      the password policy, so the `assertPasswordStrength` that follows it
      never fails. */
  method GenerateTemporaryPassword(d: Draws) returns (p: string)
    requires ValidDraws(d)
    ensures p == Shuffle(Unshuffled(d), d.swaps, Length - 1)
    ensures |p| == Length && multiset(p) == multiset(Unshuffled(d))
    ensures forall k :: 0 <= k < |p| ==> p[k] in AllChars
    ensures Compliant(p)
    ensures ValidatePasswordStrength(p).success
  {
    var pre := Unshuffled(d);
    var a := new char[Length](k requires 0 <= k < Length => pre[k]);
    assert a[..] == Shuffle(pre, d.swaps, 0);
    var i := Length - 1;
    while i > 0
      invariant 0 <= i <= Length - 1
      invariant a[..] == Shuffle(pre, d.swaps, Length - 1 - i)
    {
      var j := d.swaps[Length - 1 - i];
      a[i], a[j] := a[j], a[i];
      i := i - 1;
    }
    p := a[..];
    ShufflePermutes(pre, d.swaps, Length - 1);
    UnshuffledFromAllChars(d);
    forall k | 0 <= k < |p| ensures p[k] in AllChars {
      assert p[k] in multiset(pre);
    }
    UnshuffledCompliant(d);
    CompliantUnderPermutation(p, pre);
  }
}
