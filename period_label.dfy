/** The period labels of both demos' period selectors (`500ms`, `1s`, ...)
    and the length of time each one names. */
module PeriodLabel {

  function DigitsValue(s: string): nat
  {
    if s == [] then 0
    else
      var last := s[|s| - 1];
      DigitsValue(s[..|s| - 1]) * 10 + (if '0' <= last <= '9' then (last - '0') as nat else 0)
  }

  predicate EndsWith(s: string, suffix: string)
  {
    |suffix| <= |s| && s[|s| - |suffix|..] == suffix
  }

  /** What a period label says in milliseconds: `<n>ms` or `<n>s`. */
  function LabelMillis(text: string): nat
  {
    if EndsWith(text, "ms") then DigitsValue(text[..|text| - 2])
    else if EndsWith(text, "s") then 1000 * DigitsValue(text[..|text| - 1])
    else 0
  }

  /** `<digits>s` names that many seconds when the digits spell v. */
  lemma SecondsLabel(text: string, digits: string, v: nat)
    requires text == digits + "s" && |digits| > 0 && digits[|digits| - 1] != 'm'
    requires DigitsValue(digits) == v
    ensures LabelMillis(text) == 1000 * v
  {
    assert !EndsWith(text, "ms");
    assert text[..|text| - 1] == digits;
  }

  lemma OneDigit(d: string, v: nat)
    requires |d| == 1 && '0' <= d[0] <= '9' && v == (d[0] - '0') as nat
    ensures DigitsValue(d) == v
  {
    assert d[..0] == "";
  }

  lemma TwoDigits(d: string, v: nat)
    requires |d| == 2 && '0' <= d[0] <= '9' && '0' <= d[1] <= '9'
    requires v == (d[0] - '0') as nat * 10 + (d[1] - '0') as nat
    ensures DigitsValue(d) == v
  {
    OneDigit(d[..1], (d[0] - '0') as nat);
  }

  lemma ThreeDigits(d: string, v: nat)
    requires |d| == 3 && '0' <= d[0] <= '9' && '0' <= d[1] <= '9' && '0' <= d[2] <= '9'
    requires v == (d[0] - '0') as nat * 100 + (d[1] - '0') as nat * 10 + (d[2] - '0') as nat
    ensures DigitsValue(d) == v
  {
    TwoDigits(d[..2], (d[0] - '0') as nat * 10 + (d[1] - '0') as nat);
  }

  lemma MillisLabel500()
    ensures LabelMillis("500ms") == 500
  {
    ThreeDigits("500", 500);
    assert EndsWith("500ms", "ms");
    assert "500ms"[..3] == "500";
  }

  /** The labels of the two demos' period selectors name these periods. */
  lemma KnownLabels()
    ensures LabelMillis("500ms") == 500
    ensures LabelMillis("1s") == 1000
    ensures LabelMillis("5s") == 5000
    ensures LabelMillis("10s") == 10000
    ensures LabelMillis("30s") == 30000
    ensures LabelMillis("60s") == 60000
  {
    MillisLabel500();
    OneDigit("1", 1);
    SecondsLabel("1s", "1", 1);
    OneDigit("5", 5);
    SecondsLabel("5s", "5", 5);
    TwoDigits("10", 10);
    SecondsLabel("10s", "10", 10);
    TwoDigits("30", 30);
    SecondsLabel("30s", "30", 30);
    TwoDigits("60", 60);
    SecondsLabel("60s", "60", 60);
  }
}
