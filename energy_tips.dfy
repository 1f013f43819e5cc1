/** The fixed table of energy-saving tips and the case-insensitive lookup
    that attaches one of them to every device type of the summary. */
module EnergyTips {

  // Each tip is its leading symbol followed by its text, written as two
  // literals so that the symbol that tells the tips apart is easy to reach.

  const LightTip: string := "\U{1F4A1}" + " Switch to LED bulbs for better energy efficiency."
  const FanTip: string := "\U{1F32C}\U{FE0F}" + " Use energy-efficient ceiling fans."
  const AirConditionerTip: string := "\U{2744}\U{FE0F}" + " Set AC temperature to 24\U{B0}C for energy savings."
  const FridgeTip: string := "\U{1F9CA}" + " Keep refrigerator door closed tightly."
  const TvTip: string := "\U{1F4FA}" + " Turn off TV completely when not in use."
  const ComputerTip: string := "\U{1F5A5}\U{FE0F}" + " Enable power-saving mode on your computer."
  const WasherTip: string := "\U{1F9FA}" + " Run washer with full loads."

  /** The tip given to every device type that is not in the table. */
  const FallbackTip: string := "\U{2705}" + " Use appliances wisely to save energy."

  /** The seven entries of the tip table, keyed by lower-case device type. */
  const Tips: map<string, string> := map[
    "light" := LightTip,
    "fan" := FanTip,
    "air_conditioner" := AirConditionerTip,
    "fridge" := FridgeTip,
    "tv" := TvTip,
    "computer" := ComputerTip,
    "washer" := WasherTip
  ]

  /** Lower-cases one character; only the ASCII letters A-Z change. */
  function LowerChar(c: char): (d: char)
    ensures 'A' <= c <= 'Z' ==> 'a' <= d <= 'z' && d as int - c as int == 32
    ensures !('A' <= c <= 'Z') ==> d == c
    ensures !('A' <= d <= 'Z')
  {
    if 'A' <= c <= 'Z' then (c as int + 32) as char else c
  }

  /** Two characters are the same letter up to ASCII case: equal, or an
      ASCII capital and the lower-case letter 32 code points above it. */
  predicate SameIgnoringCase(c: char, d: char) {
    || c == d
    || ('A' <= c <= 'Z' && d as int == c as int + 32)
    || ('A' <= d <= 'Z' && c as int == d as int + 32)
  }

  /** Two strings are equal up to ASCII case, character by character. */
  predicate EqualIgnoringCase(a: string, b: string) {
    |a| == |b| && forall i :: 0 <= i < |a| ==> SameIgnoringCase(a[i], b[i])
  }

  /** The lower-case form of a whole string: the same letters up to case,
      without a single ASCII capital, and unchanged when it has none. */
  function Lower(s: string): (t: string)
    ensures EqualIgnoringCase(s, t)
    ensures forall i :: 0 <= i < |t| ==> !('A' <= t[i] <= 'Z')
    ensures (forall i :: 0 <= i < |s| ==> !('A' <= s[i] <= 'Z')) ==> t == s
  {
    seq(|s|, i requires 0 <= i < |s| => LowerChar(s[i]))
  }

  /** Lower-casing one character identifies exactly the characters that
      are the same letter up to case. */
  lemma LowerCharSame(c: char, d: char)
    ensures LowerChar(c) == LowerChar(d) <==> SameIgnoringCase(c, d)
  {
  }

  /** Two strings have the same lower-case form exactly when they are
      equal up to ASCII case. */
  lemma LowerEqualIff(a: string, b: string)
    ensures Lower(a) == Lower(b) <==> EqualIgnoringCase(a, b)
  {
    if EqualIgnoringCase(a, b) {
      forall i | 0 <= i < |a| ensures Lower(a)[i] == Lower(b)[i] {
        LowerCharSame(a[i], b[i]);
      }
    }
    if Lower(a) == Lower(b) {
      forall i | 0 <= i < |a| ensures SameIgnoringCase(a[i], b[i]) {
        assert Lower(a)[i] == Lower(b)[i];
        LowerCharSame(a[i], b[i]);
      }
    }
  }

  /** The tip attached to a summary row of the given device type. */
  function Tip(deviceType: string): (t: string)
    ensures t in Tips.Values || t == FallbackTip
    ensures |t| > 0
  {
    var key := Lower(deviceType);
    if key in Tips then Tips[key] else FallbackTip
  }

  /** Lower-casing twice is lower-casing once. */
  lemma LowerIdempotent(s: string)
    ensures Lower(Lower(s)) == Lower(s)
  {
    var once := Lower(s);
    assert forall i :: 0 <= i < |s| ==> LowerChar(once[i]) == once[i];
  }

  /** The lookup ignores case: a device type gets the same tip as its
      lower-case form, and as any string with the same lower-case form. */
  lemma TipIgnoresCase(a: string, b: string)
    requires Lower(a) == Lower(b)
    ensures Tip(a) == Tip(b)
    ensures Tip(a) == Tip(Lower(a))
  {
    LowerIdempotent(a);
  }

  /** The eight strings the lookup can return are pairwise distinct. */
  lemma TipsDistinct()
    ensures FallbackTip !in Tips.Values
    ensures forall k1, k2 :: k1 in Tips && k2 in Tips && k1 != k2 ==> Tips[k1] != Tips[k2]
  {
    // The eight strings already differ in their first character.
    assert Tips.Keys == {"light", "fan", "air_conditioner", "fridge", "tv", "computer", "washer"};
    assert LightTip[0] == '\U{1F4A1}' && FanTip[0] == '\U{1F32C}' && AirConditionerTip[0] == '\U{2744}';
    assert FridgeTip[0] == '\U{1F9CA}' && TvTip[0] == '\U{1F4FA}' && ComputerTip[0] == '\U{1F5A5}';
    assert WasherTip[0] == '\U{1F9FA}' && FallbackTip[0] == '\U{2705}';
  }

  /** A device type whose lower-case form is a key of the table gets that
      key's tip, and only those device types get it. */
  lemma TipOfKnownDevice(deviceType: string, key: string)
    requires key in Tips
    ensures Tip(deviceType) == Tips[key] <==> Lower(deviceType) == key
  {
    TipsDistinct();
  }

  /** Every other device type gets the fallback tip, and only those do. */
  lemma TipOfUnknownDevice(deviceType: string)
    ensures Tip(deviceType) == FallbackTip <==> Lower(deviceType) !in Tips
  {
    TipsDistinct();
  }

  /** "Light", "LIGHT" and "light" all get the LED tip. */
  lemma LightInAnyCase()
    ensures Tip("Light") == LightTip
    ensures Tip("LIGHT") == LightTip
    ensures Tip("light") == LightTip
  {
    assert Lower("Light") == "light";
    assert Lower("LIGHT") == "light";
    assert Lower("light") == "light";
  }
}
