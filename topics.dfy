/**
 * The MQTT topic names of common.py and how a transporter fills in its id:
 * `template.format(id)`, i.e. the `{}` placeholder replaced by `str(id)`.
 */
module Topics {

  const NewTransporterTopic: string := "cargosystem/transporter/new_transporter"
  const SpeedTemplate: string := "cargosystem/transporter/{}/speed"
  const PayloadTemplate: string := "cargosystem/transporter/{}/payload"
  const FuelTemplate: string := "cargosystem/transporter/{}/fuel"

  /** The text every per-transporter template has before its placeholder. */
  const Prefix: string := "cargosystem/transporter/"

  function DigitChar(d: nat): (c: char)
    requires d < 10
    ensures '0' <= c <= '9'
    ensures c as int - '0' as int == d
  {
    ('0' as int + d) as char
  }

  function DigitValue(c: char): (d: nat)
    requires '0' <= c <= '9'
    ensures d < 10 && DigitChar(d) == c
  {
    (c as int - '0' as int)
  }

  predicate IsDigits(s: string)
  {
    forall i :: 0 <= i < |s| ==> '0' <= s[i] <= '9'
  }

  /** `str(n)` for a non-negative integer: decimal, no leading zero. */
  function NatText(n: nat): (s: string)
    ensures |s| >= 1 && IsDigits(s)
    ensures |s| > 1 ==> s[0] != '0'
    decreases n
  {
    if n < 10 then [DigitChar(n)] else NatText(n / 10) + [DigitChar(n % 10)]
  }

  /** `str(id)` for any integer: a leading '-' for a negative one. */
  function IdText(id: int): (s: string)
    ensures |s| >= 1
    ensures s[0] == '-' <==> id < 0
    ensures s[0] != '-' ==> '0' <= s[0] <= '9'
  {
    if id < 0 then "-" + NatText(-id) else NatText(id)
  }

  /** Reads a decimal numeral back (the partner of NatText). */
  function ParseNat(s: string): nat
    requires IsDigits(s)
  {
    if s == [] then 0 else ParseNat(s[..|s| - 1]) * 10 + DigitValue(s[|s| - 1])
  }

  /** Appending a digit multiplies the value read so far by ten and adds the digit. */
  lemma ParseNatSnoc(s: string, c: char)
    requires IsDigits(s) && '0' <= c <= '9'
    ensures IsDigits(s + [c])
    ensures ParseNat(s + [c]) == ParseNat(s) * 10 + DigitValue(c)
  {
    assert (s + [c])[..|s|] == s;
  }

  /** The text of a number of two or more digits is the text of its tens followed by its last digit. */
  lemma NatTextSplit(n: nat)
    requires n >= 10
    ensures NatText(n) == NatText(n / 10) + [DigitChar(n % 10)]
    ensures n == n / 10 * 10 + n % 10
  {
  }

  lemma {:induction false} ParseNatText(n: nat)
    ensures ParseNat(NatText(n)) == n
    decreases n
  {
    if n >= 10 {
      var q, d := n / 10, n % 10;
      NatTextSplit(n);
      ParseNatText(q);
      ParseNatSnoc(NatText(q), DigitChar(d));
    }
  }

  lemma NatTextInjective(a: nat, b: nat)
    requires NatText(a) == NatText(b)
    ensures a == b
  {
    ParseNatText(a);
    ParseNatText(b);
  }

  /** Distinct ids render as distinct strings. */
  lemma IdTextInjective(a: int, b: int)
    requires IdText(a) == IdText(b)
    ensures a == b
  {
    if a < 0 {
      assert b < 0;
      NegativeTextInjective(-a, -b);
    } else {
      assert b >= 0;
      NatTextInjective(a, b);
    }
  }

  lemma NegativeTextInjective(n: nat, m: nat)
    requires n > 0 && m > 0 && IdText(0 - n) == IdText(0 - m)
    ensures n == m
  {
    var x, y := NatText(n), NatText(m);
    assert IdText(0 - n) == "-" + x;
    assert IdText(0 - m) == "-" + y;
    assert x == IdText(0 - n)[1..];
    assert y == IdText(0 - m)[1..];
    NatTextInjective(n, m);
  }

  /**
   * `template.format(arg)` for a template with one `{}` placeholder: the first
   * `{}` is replaced by `arg`; a template without one is returned as it is.
   */
  function Format(template: string, arg: string): (r: string)
  {
    if |template| < 2 then template
    else if template[0] == '{' && template[1] == '}' then arg + template[2..]
    else [template[0]] + Format(template[1..], arg)
  }

  /** Formatting splices the argument in place of the placeholder. */
  lemma {:induction false} FormatSplice(pre: string, post: string, arg: string)
    requires '{' !in pre
    ensures Format(pre + "{}" + post, arg) == pre + arg + post
  {
    if pre != [] {
      assert (pre + "{}" + post)[1..] == pre[1..] + "{}" + post;
      FormatSplice(pre[1..], post, arg);
    }
  }

  function Topic(template: string, id: int): string
  {
    Format(template, IdText(id))
  }

  /** The three per-transporter topics are the prefix, `str(id)` and a fixed suffix. */
  lemma TopicShapes(id: int)
    ensures Topic(SpeedTemplate, id) == Prefix + IdText(id) + "/speed"
    ensures Topic(PayloadTemplate, id) == Prefix + IdText(id) + "/payload"
    ensures Topic(FuelTemplate, id) == Prefix + IdText(id) + "/fuel"
  {
    assert '{' !in Prefix;
    assert SpeedTemplate == Prefix + "{}" + "/speed";
    assert PayloadTemplate == Prefix + "{}" + "/payload";
    assert FuelTemplate == Prefix + "{}" + "/fuel";
    FormatSplice(Prefix, "/speed", IdText(id));
    FormatSplice(Prefix, "/payload", IdText(id));
    FormatSplice(Prefix, "/fuel", IdText(id));
  }

  /** The id can be read back from a per-transporter topic: two transporters never share one. */
  lemma TopicInjective(template: string, a: int, b: int)
    requires template == SpeedTemplate || template == PayloadTemplate || template == FuelTemplate
    ensures Topic(template, a) == Topic(template, b) <==> a == b
  {
    if Topic(template, a) == Topic(template, b) {
      TopicShapes(a);
      TopicShapes(b);
      var suffix := if template == SpeedTemplate then "/speed"
                    else if template == PayloadTemplate then "/payload" else "/fuel";
      var ta, tb := Prefix + IdText(a) + suffix, Prefix + IdText(b) + suffix;
      assert ta == tb;
      assert |IdText(a)| == |IdText(b)|;
      assert IdText(a) == ta[|Prefix|..|ta| - |suffix|];
      assert IdText(b) == tb[|Prefix|..|tb| - |suffix|];
      IdTextInjective(a, b);
    }
  }

  /** For one transporter, its speed, payload and fuel topics and the announcement topic all differ. */
  lemma TopicsDistinct(id: int)
    ensures Topic(SpeedTemplate, id) != Topic(PayloadTemplate, id)
    ensures Topic(SpeedTemplate, id) != Topic(FuelTemplate, id)
    ensures Topic(PayloadTemplate, id) != Topic(FuelTemplate, id)
    ensures NewTransporterTopic !in {Topic(SpeedTemplate, id), Topic(PayloadTemplate, id), Topic(FuelTemplate, id)}
  {
    TopicShapes(id);
    var t := IdText(id);
    var n := |Prefix|;
    assert NewTransporterTopic[n] == 'n';
    assert (Prefix + t + "/speed")[n] == t[0];
    assert (Prefix + t + "/payload")[n] == t[0];
    assert (Prefix + t + "/fuel")[n] == t[0];
  }
}
