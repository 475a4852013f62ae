/** The identities of a window's requests: a number, padded to five digits. */
module RequestNames {

  function Digit(d: nat): char
    requires d < 10
  {
    ('0' as int + d) as char
  }

  function Digits(n: nat): string {
    if n < 10 then [Digit(n)] else Digits(n / 10) + [Digit(n % 10)]
  }

  function Padded(s: string): string
    decreases 5 - |s|
  {
    if |s| >= 5 then s else Padded(['0'] + s)
  }

  function RequestName(startId: string, i: nat): string {
    startId + "/request-" + Padded(Digits(i))
  }

  function DigitValue(c: char): nat {
    if '0' <= c <= '9' then c as int - '0' as int else 0
  }

  function Value(s: string): nat {
    if s == [] then 0 else 10 * Value(s[..|s| - 1]) + DigitValue(s[|s| - 1])
  }

  lemma {:induction false} DigitsValue(n: nat)
    ensures Value(Digits(n)) == n
  {
    if n < 10 {
      assert Value([]) == 0 && [Digit(n)][..0] == [];
    } else {
      DigitsValue(n / 10);
      var s := Digits(n);
      assert s[..|s| - 1] == Digits(n / 10) && s[|s| - 1] == Digit(n % 10);
    }
  }

  lemma {:induction false} ZeroInFront(s: string)
    ensures Value(['0'] + s) == Value(s)
  {
    var t := ['0'] + s;
    if s == [] {
      assert t[..0] == [];
    } else {
      ZeroInFront(s[..|s| - 1]);
      assert t[..|t| - 1] == ['0'] + s[..|s| - 1];
    }
  }

  lemma {:induction false} PaddedValue(s: string)
    ensures Value(Padded(s)) == Value(s)
    decreases 5 - |s|
  {
    if |s| < 5 {
      ZeroInFront(s);
      PaddedValue(['0'] + s);
    }
  }

  // Different requests of a window have different names, however many digits
  // their numbers take.
  lemma NamesDiffer(startId: string, i: nat, k: nat)
    requires RequestName(startId, i) == RequestName(startId, k)
    ensures i == k
  {
    hide Padded, Digits, Value;
    var head := startId + "/request-";
    var a, b := Padded(Digits(i)), Padded(Digits(k));
    assert (head + a)[|head|..] == a && (head + b)[|head|..] == b;
    DigitsValue(i);
    DigitsValue(k);
    PaddedValue(Digits(i));
    PaddedValue(Digits(k));
  }

  predicate Decimal(s: string) {
    forall i :: 0 <= i < |s| ==> '0' <= s[i] <= '9'
  }

  lemma {:induction false} DigitsLead(n: nat)
    ensures Digits(n) != [] && Decimal(Digits(n)) && (n > 0 ==> Digits(n)[0] != '0')
  {
    if n < 10 {
    } else {
      DigitsLead(n / 10);
      assert Digits(n)[0] == Digits(n / 10)[0];
    }
  }

  lemma {:induction false} PaddedLead(s: string)
    requires Decimal(s)
    ensures |Padded(s)| >= 5 && Decimal(Padded(s)) && (|Padded(s)| > 5 ==> Padded(s) == s)
    decreases 5 - |s|
  {
    if |s| < 5 {
      PaddedLead(['0'] + s);
    }
  }

  // A name ends in the request's number in decimal, five digits at the least
  // and no zeros in front of more.
  lemma NameReads(startId: string, i: nat) returns (number: string)
    ensures RequestName(startId, i) == startId + "/request-" + number
    ensures Decimal(number) && Value(number) == i && |number| >= 5 && (|number| > 5 ==> number[0] != '0')
  {
    number := Padded(Digits(i));
    DigitsValue(i);
    DigitsLead(i);
    PaddedValue(Digits(i));
    PaddedLead(Digits(i));
  }
}
