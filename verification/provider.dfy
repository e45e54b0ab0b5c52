/** The SMS provider: idempotency keys and a sender that deduplicates by key. */
module Provider {

  function Digit(d: nat): char
    requires d < 10
  {
    '0' + d as char
  }

  function Digits(n: nat): string {
    if n < 10 then [Digit(n)] else Digits(n / 10) + [Digit(n % 10)]
  }

  // The verb %d.
  function Decimal(n: int): string {
    if n < 0 then "-" + Digits(-n) else Digits(n)
  }

  function ProviderIdempotencyKey(messageId: int): string {
    "msg:" + Decimal(messageId)
  }

  lemma {:induction false} DigitsInjective(a: nat, b: nat)
    requires Digits(a) == Digits(b)
    ensures a == b
  {
    var s := Digits(a);
    assert |s| == |Digits(b)|;
    DigitsNonEmpty(a / 10);
    DigitsNonEmpty(b / 10);
    if 10 <= a && 10 <= b {
      assert s[..|s| - 1] == Digits(a / 10) == Digits(b / 10);
      assert s[|s| - 1] == Digit(a % 10) == Digit(b % 10);
      DigitsInjective(a / 10, b / 10);
    } else {
      assert s[0] == Digits(b)[0];
    }
  }

  lemma {:induction false} DigitsNonEmpty(n: nat)
    ensures Digits(n) != "" && '0' <= Digits(n)[0] <= '9'
  {
    if 10 <= n { DigitsNonEmpty(n / 10); }
  }

  /** Distinct messages never share a provider key. */
  lemma KeyInjective(a: int, b: int)
    requires ProviderIdempotencyKey(a) == ProviderIdempotencyKey(b)
    ensures a == b
  {
    var x, y := Decimal(a), Decimal(b);
    assert ProviderIdempotencyKey(a)[4..] == x && ProviderIdempotencyKey(b)[4..] == y;
    DigitsNonEmpty(if a < 0 then -a else a);
    DigitsNonEmpty(if b < 0 then -b else b);
    assert (a < 0) == (x[0] == '-') && (b < 0) == (y[0] == '-');
    if a < 0 {
      assert x[1..] == Digits(-a) && y[1..] == Digits(-b);
      DigitsInjective(-a, -b);
    } else {
      DigitsInjective(a, b);
    }
  }

  // The number a numeral stands for.
  function ValueOf(s: string): int {
    if s == "" then 0
    else if s[0] == '-' then -DigitsValue(s[1..])
    else DigitsValue(s)
  }

  function DigitsValue(s: string): int {
    if s == "" then 0 else 10 * DigitsValue(s[..|s| - 1]) + (s[|s| - 1] as int - 48)
  }

  ghost predicate IsNumeral(s: string) {
    && s != "" && (forall i :: 0 <= i < |s| ==> '0' <= s[i] <= '9')
    && (|s| > 1 ==> s[0] != '0')
  }

  lemma {:induction false} DigitsAre(n: nat)
    ensures IsNumeral(Digits(n)) && DigitsValue(Digits(n)) == n
    ensures n != 0 ==> Digits(n)[0] != '0'
  {
    if 10 <= n {
      DigitsAre(n / 10);
      assert Digits(n)[..|Digits(n)| - 1] == Digits(n / 10);
    }
  }

  // Optional sign, decimal digits without leading zeros, and the value is the number.
  lemma DecimalIs(n: int)
    ensures Decimal(n) != "" && ValueOf(Decimal(n)) == n
    ensures if n < 0 then Decimal(n)[0] == '-' && IsNumeral(Decimal(n)[1..]) else IsNumeral(Decimal(n))
  {
    DigitsAre(if n < 0 then -n else n);
    if n < 0 { assert Decimal(n)[1..] == Digits(-n); }
  }

  /** The key of a message is "msg:" and its number in decimal, without leading zeros. */
  lemma KeyIs(messageId: int)
    ensures var key := ProviderIdempotencyKey(messageId);
            && |key| > 4 && key[..4] == "msg:" && ValueOf(key[4..]) == messageId
            && (if messageId < 0 then key[4] == '-' && IsNumeral(key[4..][1..]) else IsNumeral(key[4..]))
  {
    hide IsNumeral, ValueOf, Decimal;
    DecimalIs(messageId);
    assert ProviderIdempotencyKey(messageId)[4..] == Decimal(messageId);
  }

  lemma KeyOfTwelve()
    ensures ProviderIdempotencyKey(12) == "msg:12"
  {
    assert Digits(1) == "1";
    assert Digits(12) == Digits(1) + "2";
  }

  // The development sender. It keeps its keys in memory only.
  class LogSender {
    var seen: set<string>
    ghost var sent: seq<(string, string, string)>  // effective key, recipient and text of every real SMS

    static function EffectiveKey(key: string, recipient: string, text: string): string {
      if key == "" then recipient + ":" + text else key
    }

    ghost predicate Valid()
      reads this
    {
      && (forall k :: k in seen <==> exists i :: 0 <= i < |sent| && sent[i].0 == k)
      && (forall i, j :: 0 <= i < j < |sent| ==> sent[i].0 != sent[j].0)
    }

    constructor ()
      ensures Valid() && seen == {} && sent == []
    {
      seen, sent := {}, [];
    }

    // At most one SMS a key, whatever is asked how often.
    method Send(idempotencyKey: string, recipient: string, text: string)
      requires Valid()
      modifies this
      ensures Valid()
      ensures var k := EffectiveKey(idempotencyKey, recipient, text);
              && seen == old(seen) + {k}
              && sent == if k in old(seen) then old(sent) else old(sent) + [(k, recipient, text)]
    {
      var key := idempotencyKey;
      if key == "" { key := recipient + ":" + text; }
      if key in seen { return; }
      seen := seen + {key};
      ghost var before := sent;
      sent := sent + [(key, recipient, text)];
      assert sent[|before|].0 == key;
      assert forall i :: 0 <= i < |before| ==> sent[i] == before[i];
    }
  }
}
