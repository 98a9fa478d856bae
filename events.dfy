/**
 * What the recorder module emits to JavaScript: one channel per recorder id,
 * named "RCTAudioRecorderEvent:" followed by the id in decimal, and a payload
 * tagged with the event name.
 */
module RecorderEvents {
  import opened Wrappers

  const ChannelPrefix: string := "RCTAudioRecorderEvent:"

  /** The decibel value reported for a silent sample. */
  const SilenceLevel := -160

  const Int32Min := -0x8000_0000
  const Int32Max := 0x7FFF_FFFF

  predicate IsInt32(x: int) {
    Int32Min <= x <= Int32Max
  }

  /** Java's `x++` on an `int`: the successor, wrapping from the largest int to the smallest. */
  function Inc32(x: int): (y: int)
    requires IsInt32(x)
    ensures IsInt32(y)
    ensures x < Int32Max ==> y == x + 1
    ensures x == Int32Max ==> y == Int32Min
  {
    if x == Int32Max then Int32Min else x + 1
  }

  /** The frame count after `i` increments of the `int` counter, starting at `f`. */
  function FrameAfter(f: int, i: nat): (r: int)
    requires IsInt32(f)
    ensures IsInt32(r)
    ensures f + i <= Int32Max ==> r == f + i
    decreases i
  {
    if i == 0 then f else FrameAfter(Inc32(f), i - 1)
  }

  /** Counting wraps around modulo 2^32 within the `int` range. */
  lemma {:induction false} FrameAfterWraps(f: int, i: nat)
    requires IsInt32(f)
    ensures FrameAfter(f, i) == Int32Min + (f - Int32Min + i) % 0x1_0000_0000
    decreases i
  {
    if i > 0 {
      FrameAfterWraps(Inc32(f), i - 1);
      if f == Int32Max {
        assert f - Int32Min + i == (i - 1) + 0x1_0000_0000;
      }
    }
  }

  function DigitChar(d: nat): (c: char)
    requires d < 10
    ensures '0' <= c <= '9'
  {
    (48 + d) as char
  }

  predicate AllDigits(s: string) {
    forall i :: 0 <= i < |s| ==> '0' <= s[i] <= '9'
  }

  /** The number a string of decimal digits denotes, most significant digit first. */
  function DecimalValue(s: string): (v: nat)
    requires AllDigits(s)
    ensures s == [] ==> v == 0
    decreases |s|
  {
    if s == [] then 0 else DecimalValue(s[..|s| - 1]) * 10 + (s[|s| - 1] as int - 48)
  }

  /** Decimal digits of a natural number, without leading zeros. */
  function NatToString(n: nat): (r: string)
    ensures |r| >= 1 && AllDigits(r)
    ensures n >= 10 ==> |r| >= 2
    decreases n
  {
    if n < 10 then [DigitChar(n)] else NatToString(n / 10) + [DigitChar(n % 10)]
  }

  /** Only zero is rendered with a leading '0'. */
  lemma {:induction false} NatToStringNoLeadingZero(n: nat)
    ensures NatToString(n)[0] == '0' ==> n == 0
    decreases n
  {
    if n >= 10 {
      NatToStringNoLeadingZero(n / 10);
      assert NatToString(n)[0] == NatToString(n / 10)[0];
    }
  }

  /** Reading the digits back gives the number: `NatToString` is a decimal rendering. */
  lemma {:induction false} NatToStringValue(n: nat)
    ensures DecimalValue(NatToString(n)) == n
    decreases n
  {
    var r := NatToString(n);
    if n >= 10 {
      NatToStringValue(n / 10);
      assert r[..|r| - 1] == NatToString(n / 10);
      assert r[|r| - 1] == DigitChar(n % 10);
    } else {
      assert r[..0] == [];
    }
  }

  /**
   * Java's decimal rendering of an int (`"" + n`): the digits of the
   * magnitude without leading zeros, after a minus sign when negative.
   */
  function IntToString(n: int): (r: string)
    ensures |r| >= 1
  {
    if n < 0 then "-" + NatToString(-n) else NatToString(n)
  }

  /**
   * The rendering starts with a minus sign exactly for negative numbers, and
   * the digits after the optional sign read back as the magnitude, with no
   * leading zero.
   */
  lemma IntToStringValue(n: int)
    ensures var r := IntToString(n);
      && |r| >= 1 && (r[0] == '-' <==> n < 0)
      && (n == 0 ==> r == "0")
      && (n >= 0 ==> AllDigits(r) && DecimalValue(r) == n && (r[0] == '0' ==> n == 0))
      && (n < 0 ==> |r| >= 2 && AllDigits(r[1..]) && DecimalValue(r[1..]) == -n && r[1] != '0')
  {
    if n < 0 {
      NegativeRendering(n);
    } else {
      var r := NatToString(n);
      assert IntToString(n) == r;
      NatToStringValue(n);
      NatToStringNoLeadingZero(n);
      assert '0' <= r[0] <= '9';
      assert n == 0 ==> r == [DigitChar(0)];
    }
  }

  /** A negative number renders as a minus sign and the digits of its magnitude. */
  lemma NegativeRendering(n: int)
    requires n < 0
    ensures var r := IntToString(n);
      && |r| >= 2 && r[0] == '-' && AllDigits(r[1..]) && DecimalValue(r[1..]) == -n && r[1] != '0'
  {
    var m: nat := -n;
    var digits := NatToString(m);
    var r := IntToString(n);
    assert r == "-" + digits;
    assert r[1..] == digits;
    assert r[1] == digits[0];
    NatToStringValue(m);
    NatToStringNoLeadingZero(m);
  }

  /**
   * The name of the channel a recorder's events go to: the prefix followed
   * by the id in decimal, or by "null" when there is no id.
   */
  function ChannelName(id: Option<int>): (name: string)
    ensures |name| > |ChannelPrefix| && name[..|ChannelPrefix|] == ChannelPrefix
  {
    ChannelPrefix + (if id.Some? then IntToString(id.value) else "null")
  }

  /** What follows the prefix reads back as the id, without a leading zero, or is "null". */
  lemma ChannelNameSuffix(id: Option<int>)
    ensures var suffix := ChannelName(id)[|ChannelPrefix|..];
      && (id.None? ==> suffix == "null")
      && (id == Some(0) ==> suffix == "0")
      && (id.Some? && id.value >= 0 ==> AllDigits(suffix) && DecimalValue(suffix) == id.value
                                        && (suffix[0] == '0' ==> id.value == 0))
      && (id.Some? && id.value < 0 ==> suffix[0] == '-' && AllDigits(suffix[1..]) && DecimalValue(suffix[1..]) == -id.value
                                       && suffix[1] != '0')
  {
    assert ChannelName(id)[|ChannelPrefix|..] == if id.Some? then IntToString(id.value) else "null";
    if id.Some? {
      IntToStringValue(id.value);
    }
  }

  lemma {:induction false} NatToStringInjective(a: nat, b: nat)
    requires NatToString(a) == NatToString(b)
    ensures a == b
    decreases a
  {
    var r := NatToString(a);
    if a >= 10 && b >= 10 {
      assert r[|r| - 1] == DigitChar(a % 10) == DigitChar(b % 10);
      assert NatToString(a / 10) == r[..|r| - 1] == NatToString(b / 10);
      NatToStringInjective(a / 10, b / 10);
    } else if a < 10 && b < 10 {
      assert DigitChar(a) == r[0] == DigitChar(b);
    }
  }

  lemma IntToStringInjective(a: int, b: int)
    requires IntToString(a) == IntToString(b)
    ensures a == b
  {
    var r := IntToString(a);
    IntToStringValue(a);
    IntToStringValue(b);
    if a < 0 && b < 0 {
      assert NatToString(-a) == r[1..] == NatToString(-b);
      NatToStringInjective(-a, -b);
    } else if a >= 0 && b >= 0 {
      NatToStringInjective(a, b);
    }
  }

  /** Distinct recorder ids, and the null id, never share a channel. */
  lemma ChannelNameInjective(a: Option<int>, b: Option<int>)
    requires ChannelName(a) == ChannelName(b)
    ensures a == b
  {
    var n := |ChannelPrefix|;
    var sa := if a.Some? then IntToString(a.value) else "null";
    var sb := if b.Some? then IntToString(b.value) else "null";
    assert sa == ChannelName(a)[n..] == ChannelName(b)[n..] == sb;
    if a.Some? {
      IntToStringValue(a.value);
    }
    if b.Some? {
      IntToStringValue(b.value);
    }
    if a.Some? && b.Some? {
      IntToStringInjective(a.value, b.value);
    }
  }

  /** The `value` field of a meter sample; the logarithm for a non-zero amplitude is not interpreted. */
  datatype MeterValue = Level(db: int) | Log10Ratio(amplitude: int)

  /** The `data` of an emitted event. */
  datatype EventData =
    | DestroyedInfo
    | NativeInfo(infoWhat: int, infoExtra: int)
    | NativeError(errorWhat: int, errorExtra: int)
    | Meter(frame: int, value: MeterValue, rawValue: int)

  datatype Event = Event(channel: string, name: string, data: EventData)

  /** The meter payload for the given frame and sampled amplitude. */
  function MeterSample(frame: int, amplitude: int): (d: EventData)
    ensures d.Meter? && d.frame == frame && d.rawValue == amplitude
    ensures amplitude == 0 <==> d.value == Level(SilenceLevel)
  {
    if amplitude == 0 then Meter(frame, Level(SilenceLevel), 0)
    else Meter(frame, Log10Ratio(amplitude), amplitude)
  }
}
