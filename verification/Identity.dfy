/** The operation identity transcriber-bot:<bot>:<update>: rendering, parsing and injectivity. */
module Identity {
  import opened Options

  const PREFIX := "transcriber-bot:"

  function Digit(d: nat): char
    requires d < 10
  {
    "0123456789"[d]
  }

  predicate IsDigit(c: char) {
    '0' <= c <= '9'
  }

  function RenderNat(n: nat): (s: string)
    ensures s != "" && forall c | c in s :: IsDigit(c)
  {
    if n < 10 then [Digit(n)] else RenderNat(n / 10) + [Digit(n % 10)]
  }

  // The %d verb.
  function Render(n: int): string {
    if n < 0 then "-" + RenderNat(-n) else RenderNat(n)
  }

  function ParseNat(s: string): Option<nat> {
    if s == "" || !IsDigit(s[|s| - 1]) then None
    else
      var d := (s[|s| - 1] as int) - ('0' as int);
      if |s| == 1 then Some(d)
      else match ParseNat(s[..|s| - 1])
           case None => None
           case Some(n) => Some(10 * n + d)
  }

  function Parse(s: string): Option<int> {
    var negative := s != "" && s[0] == '-';
    var magnitude := ParseNat(if negative then s[1..] else s);
    if magnitude.None? then None
    else
      var n: int := magnitude.value;
      Some(if negative then -n else n)
  }

  // Position of the first colon, or |s|.
  function Colon(s: string): (i: nat)
    ensures i <= |s|
    ensures i < |s| ==> s[i] == ':'
    ensures forall k | 0 <= k < i :: s[k] != ':'
  {
    if s == "" || s[0] == ':' then 0 else 1 + Colon(s[1..])
  }

  function RequestId(bot: int, update: int): string {
    PREFIX + Render(bot) + ":" + Render(update)
  }

  function ParseRequestId(s: string): Option<(int, int)> {
    if !(PREFIX <= s) then None
    else
      var rest := s[|PREFIX|..];
      var i := Colon(rest);
      if i == |rest| then None
      else match (Parse(rest[..i]), Parse(rest[i + 1..]))
           case (Some(bot), Some(update)) => Some((bot, update))
           case _ => None
  }

  lemma DigitIsValue(d: nat)
    requires d < 10
    ensures IsDigit(Digit(d)) && (Digit(d) as int) - ('0' as int) == d
  {
  }

  lemma {:induction false} ParseNatInvertsRender(n: nat)
    ensures ParseNat(RenderNat(n)) == Some(n)
  {
    if n >= 10 {
      ParseNatInvertsRender(n / 10);
      var s := RenderNat(n);
      assert s == RenderNat(n / 10) + [Digit(n % 10)];
      assert s[..|s| - 1] == RenderNat(n / 10);
      DigitIsValue(n % 10);
    }
  }

  lemma ParseInvertsRender(n: int)
    ensures Parse(Render(n)) == Some(n)
    ensures ':' !in Render(n)
  {
    var digits := RenderNat(if n < 0 then -n else n);
    ParseNatInvertsRender(if n < 0 then -n else n);
    assert digits[0] in digits;
    if n < 0 {
      assert Render(n)[1..] == digits;
      assert ':' !in digits && ':' !in "-";
    } else {
      assert Render(n) == digits;
    }
  }

  /** The identity determines the bot and the update it was made from. */
  lemma RequestIdRoundTrip(bot: int, update: int)
    ensures ParseRequestId(RequestId(bot, update)) == Some((bot, update))
  {
    ParseInvertsRender(bot);
    ParseInvertsRender(update);
    var b, u := Render(bot), Render(update);
    var s := RequestId(bot, update);
    assert s[..|PREFIX|] == PREFIX;
    var rest := s[|PREFIX|..];
    assert rest == b + ":" + u;
    assert rest[|b|] == ':';
    assert forall k | 0 <= k < |b| :: rest[k] == b[k] && b[k] in b;
    assert Colon(rest) == |b|;
    assert rest[..|b|] == b && rest[|b| + 1..] == u;
  }

  lemma RequestIdShape()
    ensures RequestId(4711, 90) == "transcriber-bot:4711:90" && RequestId(-8, 0) == "transcriber-bot:-8:0"
  {
    assert RenderNat(47) == RenderNat(4) + "7" == "47";
    assert RenderNat(471) == RenderNat(47) + "1" == "471";
    assert RenderNat(4711) == RenderNat(471) + "1" == "4711";
    assert RenderNat(90) == RenderNat(9) + "0" == "90";
  }

  lemma RequestIdIsInjective(bot: int, update: int, bot': int, update': int)
    requires RequestId(bot, update) == RequestId(bot', update')
    ensures bot == bot' && update == update'
  {
    RequestIdRoundTrip(bot, update);
    RequestIdRoundTrip(bot', update');
  }
}
