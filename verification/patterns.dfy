/** The two regular-expression literals of the client, written as data over a
    small regular-expression language with whole-string (`^…$`) matching:
    the SWIFT/BIC field pattern of App.js and the account-number check of
    Register.js. Each is proved equal to a plain character-by-character shape. */
module Patterns {

  predicate IsUpper(c: char) { 'A' <= c <= 'Z' }
  predicate IsLower(c: char) { 'a' <= c <= 'z' }
  predicate IsDigit(c: char) { '0' <= c <= '9' }

  /** The bracket classes the two literals use: `[A-Z]`, `[A-Z0-9]`, `[a-zA-Z0-9]`. */
  datatype CharClass = Upper | UpperOrDigit | Alphanumeric

  predicate InClass(k: CharClass, c: char)
  {
    match k
    case Upper => IsUpper(c)
    case UpperOrDigit => IsUpper(c) || IsDigit(c)
    case Alphanumeric => IsLower(c) || IsUpper(c) || IsDigit(c)
  }

  /** `[…]`, juxtaposition, `{n}`, `(…)?` and `+`. */
  datatype Regex =
    | Class(k: CharClass)
    | Concat(left: Regex, right: Regex)
    | Exactly(body: Regex, count: nat)
    | Optional(body: Regex)
    | OneOrMore(body: Regex)

  /** `re` matches the whole of `s` (the literal is anchored by `^` and `$`). */
  predicate Matches(re: Regex, s: string)
    decreases re, 0, |s|
  {
    match re
    case Class(k) => |s| == 1 && InClass(k, s[0])
    case Concat(a, b) => exists i :: 0 <= i <= |s| && Matches(a, s[..i]) && Matches(b, s[i..])
    case Exactly(r, n) => MatchesTimes(r, n, s)
    case Optional(r) => s == [] || Matches(r, s)
    case OneOrMore(r) =>
      exists i :: 0 < i <= |s| && Matches(r, s[..i]) && (i == |s| || Matches(re, s[i..]))
  }

  /** `s` splits into `n` consecutive pieces each matching `r`. */
  predicate MatchesTimes(r: Regex, n: nat, s: string)
    decreases r, 1, n
  {
    if n == 0 then s == []
    else exists i :: 0 <= i <= |s| && Matches(r, s[..i]) && MatchesTimes(r, n - 1, s[i..])
  }

  /** Every character of `s` is in class `k`. */
  predicate AllIn(k: CharClass, s: string)
  {
    forall i :: 0 <= i < |s| ==> InClass(k, s[i])
  }

  /** `[k]{n}` matches exactly the strings of length `n` drawn from `k`. */
  lemma {:induction false} ClassTimes(k: CharClass, n: nat, s: string)
    ensures MatchesTimes(Class(k), n, s) <==> |s| == n && AllIn(k, s)
    decreases n
  {
    if n > 0 {
      if MatchesTimes(Class(k), n, s) {
        var i :| 0 <= i <= |s| && Matches(Class(k), s[..i]) && MatchesTimes(Class(k), n - 1, s[i..]);
        assert i == 1;
        ClassTimes(k, n - 1, s[1..]);
        assert InClass(k, s[0]);
      }
      if |s| == n && AllIn(k, s) {
        ClassTimes(k, n - 1, s[1..]);
        assert Matches(Class(k), s[..1]);
      }
    }
  }

  /** `[k]+` matches exactly the non-empty strings drawn from `k`. */
  lemma {:induction false} ClassPlus(k: CharClass, s: string)
    ensures Matches(OneOrMore(Class(k)), s) <==> |s| >= 1 && AllIn(k, s)
    decreases |s|
  {
    var re := OneOrMore(Class(k));
    if Matches(re, s) {
      var i :| 0 < i <= |s| && Matches(Class(k), s[..i]) && (i == |s| || Matches(re, s[i..]));
      assert i == 1;
      if |s| > 1 {
        ClassPlus(k, s[1..]);
      }
      assert InClass(k, s[0]);
    }
    if |s| >= 1 && AllIn(k, s) {
      assert Matches(Class(k), s[..1]);
      if |s| > 1 {
        ClassPlus(k, s[1..]);
      }
    }
  }

  /** A fixed-width class run in front of `b` takes exactly its width. */
  lemma ClassTimesThen(k: CharClass, n: nat, b: Regex, s: string)
    ensures Matches(Concat(Exactly(Class(k), n), b), s)
        <==> n <= |s| && AllIn(k, s[..n]) && Matches(b, s[n..])
  {
    if Matches(Concat(Exactly(Class(k), n), b), s) {
      var i :| 0 <= i <= |s| && Matches(Exactly(Class(k), n), s[..i]) && Matches(b, s[i..]);
      ClassTimes(k, n, s[..i]);
    }
    if n <= |s| && AllIn(k, s[..n]) && Matches(b, s[n..]) {
      ClassTimes(k, n, s[..n]);
      assert Matches(Exactly(Class(k), n), s[..n]);
    }
  }

  /** The SWIFT/BIC field pattern of App.js: `^[A-Z]{6}[A-Z0-9]{2}([A-Z0-9]{3})?$`. */
  const SwiftPattern: Regex :=
    Concat(Exactly(Class(Upper), 6),
           Concat(Exactly(Class(UpperOrDigit), 2),
                  Optional(Exactly(Class(UpperOrDigit), 3))))

  /** The ISO 9362 layout as the literal restricts it: bank and country code
      letters only, then a location code and an optional branch code of upper-case
      letters or digits. */
  predicate SwiftShape(s: string)
  {
    && (|s| == 8 || |s| == 11)
    && (forall i :: 0 <= i < 6 ==> IsUpper(s[i]))
    && (forall i :: 6 <= i < |s| ==> IsUpper(s[i]) || IsDigit(s[i]))
  }

  lemma SwiftPatternShape(s: string)
    ensures Matches(SwiftPattern, s) <==> SwiftShape(s)
  {
    var tail := Concat(Exactly(Class(UpperOrDigit), 2), Optional(Exactly(Class(UpperOrDigit), 3)));
    ClassTimesThen(Upper, 6, tail, s);
    if 6 <= |s| {
      var t := s[6..];
      ClassTimesThen(UpperOrDigit, 2, Optional(Exactly(Class(UpperOrDigit), 3)), t);
      if 2 <= |t| {
        ClassTimes(UpperOrDigit, 3, t[2..]);
        assert forall i :: 6 <= i < |s| ==> s[i] == (if i < 8 then t[..2][i - 6] else t[2..][i - 8]);
      }
    }
  }

  /** Only strings of length 8 or 11 pass the SWIFT/BIC pattern. */
  lemma SwiftLength(s: string)
    requires Matches(SwiftPattern, s)
    ensures |s| == 8 || |s| == 11
  {
    SwiftPatternShape(s);
  }

  /** A lower-case letter anywhere (or a digit in the first six places) fails the pattern. */
  lemma SwiftRejects(s: string, i: nat)
    requires i < |s|
    requires IsLower(s[i]) || (i < 6 && IsDigit(s[i]))
    ensures !Matches(SwiftPattern, s)
  {
    SwiftPatternShape(s);
  }

  /** The account-number check of Register.js: `^[a-zA-Z0-9]+$`. */
  const AccountNumberPattern: Regex := OneOrMore(Class(Alphanumeric))

  lemma AccountNumberShape(s: string)
    ensures Matches(AccountNumberPattern, s)
        <==> s != [] && forall i :: 0 <= i < |s| ==> IsLower(s[i]) || IsUpper(s[i]) || IsDigit(s[i])
  {
    ClassPlus(Alphanumeric, s);
  }
}
