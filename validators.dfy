/** The contact-form validators of js/app.js (`utils.validateEmail` and
    `utils.validatePhone`), each a regular-expression test, restated as a
    character-level check and proved equal to what the pattern matches. */
module Validators {
  import opened Common

  // ---------------------------------------------------------------------
  // validateEmail: /^[^\s@]+@[^\s@]+\.[^\s@]+$/

  /** A character of the class `[^\s@]`. */
  predicate EmailChar(c: char)
  {
    !IsJsWhitespace(c) && c != '@'
  }

  predicate AllEmailChars(s: seq<char>)
  {
    forall k :: 0 <= k < |s| ==> EmailChar(s[k])
  }

  /** What the pattern matches: three non-empty runs of `[^\s@]`, the first
      two joined by `@` and the last two by `.`. */
  ghost predicate EmailPattern(s: string)
  {
    exists i, j ::
      && 0 < i && i + 1 < j && j + 1 < |s|
      && s[i] == '@' && s[j] == '.'
      && AllEmailChars(s[..i]) && AllEmailChars(s[i + 1..j]) && AllEmailChars(s[j + 1..])
  }

  /** How often `c` occurs in `s`. */
  function CountChar(s: seq<char>, c: char): nat
  {
    if s == [] then 0 else (if s[0] == c then 1 else 0) + CountChar(s[1..], c)
  }

  /** The position of the first `c` in `s`, or `|s|` when there is none. */
  function IndexOfChar(s: seq<char>, c: char): (r: nat)
    ensures r <= |s|
    ensures r < |s| ==> s[r] == c
    ensures forall m :: 0 <= m < r ==> s[m] != c
  {
    if s == [] then 0 else if s[0] == c then 0 else 1 + IndexOfChar(s[1..], c)
  }

  /** `d` holds a `.` that is neither its first nor its last character. */
  predicate HasInnerDot(d: seq<char>)
  {
    exists k :: 0 < k < |d| - 1 && d[k] == '.'
  }

  /** A character occurs exactly once when it occurs at some position and
      nowhere else. */
  lemma {:induction false} CountOnce(s: seq<char>, c: char, i: nat)
    requires i < |s| && s[i] == c
    ensures CountChar(s, c) == 1 <==> forall m :: 0 <= m < |s| && m != i ==> s[m] != c
  {
    assert forall m :: 0 < m < |s| ==> s[m] == s[1..][m - 1];
    if i == 0 {
      CountAbsent(s[1..], c);
    } else {
      CountOnce(s[1..], c, i - 1);
      if s[0] == c {
        CountAbsent(s[1..], c);
        assert s[1..][i - 1] == c;
      }
    }
  }

  lemma {:induction false} CountAbsent(s: seq<char>, c: char)
    ensures CountChar(s, c) == 0 <==> forall m :: 0 <= m < |s| ==> s[m] != c
  {
    if s != [] {
      CountAbsent(s[1..], c);
      assert forall m :: 0 < m < |s| ==> s[m] == s[1..][m - 1];
    }
  }

  /** The character-level reading of the pattern: no whitespace, exactly
      one `@`, something before it, and after it a `.` that is neither
      first nor last. */
  predicate EmailShape(email: string)
  {
    var at := IndexOfChar(email, '@');
    && NoWhitespace(email)
    && CountChar(email, '@') == 1
    && 0 < at < |email|
    && HasInnerDot(email[at + 1..])
  }

  /** `validateEmail(email)`: accepts exactly what the pattern matches. */
  function ValidateEmail(email: string): (ok: bool)
    ensures ok <==> EmailPattern(email)
  {
    ShapeImpliesPattern(email);
    PatternImpliesShape(email);
    EmailShape(email)
  }

  lemma ShapeImpliesPattern(email: string)
    ensures EmailShape(email) ==> EmailPattern(email)
  {
    if EmailShape(email) {
      var at := IndexOfChar(email, '@');
      CountOnce(email, '@', at);
      var host := email[at + 1..];
      var k :| 0 < k < |host| - 1 && host[k] == '.';
      var j := at + 1 + k;
      assert email[j] == host[k];
      AllEmailCharsSlice(email, at, 0, at);
      AllEmailCharsSlice(email, at, at + 1, j);
      AllEmailCharsSlice(email, at, j + 1, |email|);
      assert email[j + 1..] == email[j + 1..|email|];
    }
  }

  /** A slice of a whitespace-free string whose only `@` lies outside the
      slice consists of `[^\s@]` characters. */
  lemma AllEmailCharsSlice(email: string, at: nat, lo: nat, hi: nat)
    requires NoWhitespace(email)
    requires at < |email| && forall m :: 0 <= m < |email| && m != at ==> email[m] != '@'
    requires lo <= hi <= |email| && (at < lo || hi <= at)
    ensures AllEmailChars(email[lo..hi])
  {
    forall k | 0 <= k < hi - lo
      ensures EmailChar(email[lo..hi][k])
    {
      assert email[lo..hi][k] == email[lo + k];
    }
  }

  lemma PatternImpliesShape(email: string)
    ensures EmailPattern(email) ==> EmailShape(email)
  {
    if EmailPattern(email) {
      var i, j :| && 0 < i && i + 1 < j && j + 1 < |email|
                  && email[i] == '@' && email[j] == '.'
                  && AllEmailChars(email[..i]) && AllEmailChars(email[i + 1..j]) && AllEmailChars(email[j + 1..]);
      OnlyAtIsSeparator(email, i, j);
      CountOnce(email, '@', i);
      assert IndexOfChar(email, '@') == i;
      var host := email[i + 1..];
      assert host[j - i - 1] == '.';
    }
  }

  /** In a match, every character other than the separating `@` is of the
      class `[^\s@]`, so the whole address is free of whitespace. */
  lemma OnlyAtIsSeparator(email: string, i: nat, j: nat)
    requires i < j < |email| && email[i] == '@' && email[j] == '.'
    requires AllEmailChars(email[..i]) && AllEmailChars(email[i + 1..j]) && AllEmailChars(email[j + 1..])
    ensures forall m :: 0 <= m < |email| && m != i ==> email[m] != '@'
    ensures NoWhitespace(email)
  {
    forall m | 0 <= m < |email| && m != i
      ensures EmailChar(email[m])
    {
      if m < i {
        assert email[m] == email[..i][m];
      } else if m < j {
        assert email[m] == email[i + 1..j][m - i - 1];
      } else if m > j {
        assert email[m] == email[j + 1..][m - j - 1];
      }
    }
    forall m | 0 <= m < |email|
      ensures !IsJsWhitespace(email[m])
    {
      if m != i {
        assert EmailChar(email[m]);
      }
    }
  }


  /** Any whitespace character makes an address invalid. */
  lemma EmailRejectsWhitespace(email: string, k: nat)
    requires k < |email| && IsJsWhitespace(email[k])
    ensures !ValidateEmail(email)
  {
  }

  /** So does any number of `@` other than one. */
  lemma EmailNeedsOneAt(email: string)
    requires CountChar(email, '@') != 1
    ensures !ValidateEmail(email)
  {
  }

  // ---------------------------------------------------------------------
  // validatePhone: /^[6-9]\d{9}$/ matched against phone.replace(/\D/g, '').slice(-10)

  /** `replace(/\D/g, '')`: the ASCII digits of `s`, in order. */
  function DigitsOnly(s: seq<char>): (r: seq<char>)
    ensures |r| <= |s|
    ensures forall k :: 0 <= k < |r| ==> IsAsciiDigit(r[k])
  {
    if s == [] then []
    else (if IsAsciiDigit(s[0]) then [s[0]] else []) + DigitsOnly(s[1..])
  }

  /** `slice(-10)`: the last ten characters, or all of them when there are
      fewer. */
  function LastTen(d: seq<char>): (r: seq<char>)
    ensures |r| == Min(|d|, 10)
    ensures r == d[|d| - |r|..]
  {
    if |d| <= 10 then d else d[|d| - 10..]
  }

  /** What `/^[6-9]\d{9}$/` matches. */
  predicate PhonePattern(t: seq<char>)
  {
    && |t| == 10
    && '6' <= t[0] <= '9'
    && forall k :: 1 <= k < 10 ==> IsAsciiDigit(t[k])
  }

  /** At least ten digits, the tenth from the end being 6, 7, 8 or 9. */
  predicate TenthFromEndMobile(d: seq<char>)
  {
    |d| >= 10 && '6' <= d[|d| - 10] <= '9'
  }

  /** `validatePhone(phone)`: true exactly when the input has at least ten
      digits and the tenth digit from the end is 6, 7, 8 or 9. */
  function ValidatePhone(phone: string): (ok: bool)
    ensures ok <==> TenthFromEndMobile(DigitsOnly(phone))
  {
    PhonePattern(LastTen(DigitsOnly(phone)))
  }

  lemma {:induction false} DigitsOnlyConcat(a: seq<char>, b: seq<char>)
    ensures DigitsOnly(a + b) == DigitsOnly(a) + DigitsOnly(b)
  {
    if a == [] {
      assert a + b == b;
    } else {
      assert (a + b)[0] == a[0] && (a + b)[1..] == a[1..] + b;
      DigitsOnlyConcat(a[1..], b);
    }
  }

  lemma {:induction false} DigitsOnlyOfDigits(d: seq<char>)
    requires forall k :: 0 <= k < |d| ==> IsAsciiDigit(d[k])
    ensures DigitsOnly(d) == d
  {
    if d != [] {
      DigitsOnlyOfDigits(d[1..]);
    }
  }

  /** Text without a digit is stripped to nothing. */
  lemma {:induction false} DigitsOnlyOfNonDigits(s: string)
    requires forall k :: 0 <= k < |s| ==> !IsAsciiDigit(s[k])
    ensures DigitsOnly(s) == []
  {
    if s != [] {
      DigitsOnlyOfNonDigits(s[1..]);
    }
  }

  /** A character that is not a digit, put anywhere in the input, does not
      change the result: spaces, dashes, brackets and `+` are ignored. */
  lemma PhoneIgnoresNonDigit(front: string, c: char, back: string)
    requires !IsAsciiDigit(c)
    ensures ValidatePhone(front + [c] + back) == ValidatePhone(front + back)
  {
    DigitsOnlyConcat(front + [c], back);
    DigitsOnlyConcat(front, [c]);
    DigitsOnlyConcat(front, back);
    DigitsOnlyOfNonDigits([c]);
    assert DigitsOnly(front + [c]) == DigitsOnly(front);
  }

  /** The result depends only on the digits: every other character is
      stripped before the test. */
  lemma PhoneDependsOnlyOnDigits(phone: string)
    ensures ValidatePhone(phone) == ValidatePhone(DigitsOnly(phone))
  {
    DigitsOnlyOfDigits(DigitsOnly(phone));
  }

  /** Fewer than ten digits never validate. */
  lemma PhoneTooFewDigits(phone: string)
    requires |DigitsOnly(phone)| < 10
    ensures !ValidatePhone(phone)
  {
  }

  /** Only the last ten digits count: a leading country code such as 91,
      or anything else put in front, does not change the result once ten
      digits follow it. */
  lemma PhoneIgnoresPrefix(prefix: string, phone: string)
    requires |DigitsOnly(phone)| >= 10
    ensures ValidatePhone(prefix + phone) == ValidatePhone(phone)
  {
    DigitsOnlyConcat(prefix, phone);
    TenthFromEndOfSuffix(DigitsOnly(prefix), DigitsOnly(phone));
  }

  lemma TenthFromEndOfSuffix(front: seq<char>, d: seq<char>)
    requires |d| >= 10
    ensures TenthFromEndMobile(front + d) == TenthFromEndMobile(d)
  {
    assert (front + d)[|front + d| - 10] == d[|d| - 10];
  }


}
