/**
 * The page of one star: whether it shows "Loading...", "Star not found" or the
 * star, the booking quote (the hourly rate plus a ten percent service fee),
 * the 24 hourly time slots offered for booking and the header image.
 */
module StarDetails {
  import opened Js

  /** The fields of a `stars` document the page reads; the hourly rate is a whole number. */
  datatype StarData = StarData(
    name: Option<string>, hourlyRate: int,
    profilePicture: Option<string>, advertisingImages: Option<seq<string>>)

  /** The document read: present, absent, or the read failed. */
  datatype Fetch = Exists(data: StarData) | Missing | ReadFailed

  datatype View = Loading | NotFound | Details(star: StarData)

  /** What the page ends up showing. The document is read only when the route carries a
    * star id; without one, `loading` is never cleared. A failed read is only logged, so it
    * shows as not found. */
  function PageView(starId: Option<string>, fetch: string -> Fetch): (v: View)
    ensures v == Loading <==> !Truthy(starId)
    ensures v.Details? ==> fetch(starId.value) == Exists(v.star)
  {
    if !Truthy(starId) then Loading
    else match fetch(starId.value)
      case Exists(data) => Details(data)
      case Missing => NotFound
      case ReadFailed => NotFound
  }

  /** Without a star id nothing is read and the page stays on "Loading..."; with one, the page
    * shows the star exactly when the document exists, and "Star not found" otherwise. */
  lemma PageViewOutcomes(starId: Option<string>, fetch: string -> Fetch)
    ensures !Truthy(starId) ==> forall other: string -> Fetch :: PageView(starId, other) == Loading
    ensures Truthy(starId) ==>
      && PageView(starId, fetch) != Loading
      && (PageView(starId, fetch).Details? <==> fetch(starId.value).Exists?)
      && (fetch(starId.value).Exists? ==> PageView(starId, fetch).star == fetch(starId.value).data)
  {
  }

  // ---------------------------------------------------------------------------
  // The quote
  // ---------------------------------------------------------------------------

  /** `Math.round(rate * 0.1)`: a tenth of the rate, halves rounded up. */
  function ServiceFee(rate: int): (fee: int)
    ensures 10 * fee - 5 <= rate < 10 * fee + 5
  {
    (rate + 5) / 10
  }

  /** The fee is the only integer within half a unit of a tenth of the rate, halves going up:
    * it is round-half-up of rate / 10. */
  lemma ServiceFeeIsRoundHalfUp(rate: int, f: int)
    requires 10 * f - 5 <= rate < 10 * f + 5
    ensures f == ServiceFee(rate)
  {
  }

  /** The price shown as total: the rate plus the fee, which is eleven tenths of the rate
    * rounded half up. */
  function Total(rate: int): (t: int)
    ensures 10 * t - 5 <= 11 * rate < 10 * t + 5
  {
    rate + ServiceFee(rate)
  }

  /** For a rate that is not negative, the fee is not negative and at most the total, the
    * total is at least the rate, and the fee and the total always add up: the total is the
    * rate plus the fee shown, and within half a unit of eleven tenths of the rate. */
  lemma QuoteBounds(rate: int)
    requires rate >= 0
    ensures 0 <= ServiceFee(rate) <= Total(rate)
    ensures rate <= Total(rate) == rate + ServiceFee(rate)
    ensures 11 * rate - 5 < 10 * Total(rate) <= 11 * rate + 5
  {
  }

  // ---------------------------------------------------------------------------
  // The time slots
  // ---------------------------------------------------------------------------

  /** `s.padStart(width, '0')`. */
  function PadStart(s: string, width: nat): (r: string)
    ensures |r| == if |s| >= width then |s| else width
    ensures r[|r| - |s|..] == s
    ensures forall k :: 0 <= k < |r| - |s| ==> r[k] == '0'
  {
    if |s| >= width then s else Zeros(width - |s|) + s
  }

  /** `n` zeros. */
  function Zeros(n: nat): (z: string)
    ensures |z| == n && forall k :: 0 <= k < n ==> z[k] == '0'
  {
    seq(n, _ => '0')
  }

  /** The option for hour `i`: `${i.toString().padStart(2, '0')}:00`. */
  function Slot(i: nat): (r: string)
    ensures |r| >= 5 && r[|r| - 3..] == ":00"
    ensures r[..|r| - 3] == PadStart(IntToString(i), 2)
  {
    PadStart(IntToString(i), 2) + ":00"
  }

  /** `Array.from({ length: 24 }, (_, i) => ...)`. */
  function TimeOptions(): (r: seq<string>)
    ensures |r| == 24
    ensures forall i :: 0 <= i < 24 ==> r[i] == Slot(i)
  {
    seq(24, i requires 0 <= i < 24 => Slot(i))
  }

  /** Hour `i` as two decimal digits, tens first, then ":00". */
  function SlotChars(i: nat): (r: string)
    requires i < 24
    ensures |r| == 5
  {
    [DigitChar(i / 10), DigitChar(i % 10), ':', '0', '0']
  }

  /** The option for hour `i` is its two decimal digits, tens first, then ":00". */
  lemma SlotDigits(i: nat)
    requires i < 24
    ensures Slot(i) == SlotChars(i)
  {
    var pad := PadStart(IntToString(i), 2);
    assert pad == [DigitChar(i / 10), DigitChar(i % 10)] by {
      if i < 10 {
        OneDigit(i);
        PadOneChar(DigitChar(i));
        assert DigitChar(0) == '0';
      } else {
        TwoDigits(i);
      }
    }
  }

  lemma OneDigit(i: nat)
    requires i < 10
    ensures IntToString(i) == [DigitChar(i)]
  {
  }

  lemma TwoDigits(i: nat)
    requires 10 <= i < 100
    ensures IntToString(i) == [DigitChar(i / 10), DigitChar(i % 10)]
  {
    assert Digits(i / 10) == [DigitChar(i / 10)];
  }

  lemma PadOneChar(c: char)
    ensures PadStart([c], 2) == ['0', c]
  {
    assert Zeros(1) == ['0'];
  }

  /** Every option is five characters long, and the options are in increasing string
    * order, hence distinct. */
  lemma TimeOptionsOrdered()
    ensures forall i :: 0 <= i < 24 ==> |TimeOptions()[i]| == 5
    ensures forall i, j :: 0 <= i < j < 24 ==> Less(TimeOptions()[i], TimeOptions()[j])
    ensures forall i, j :: 0 <= i < j < 24 ==> TimeOptions()[i] != TimeOptions()[j]
  {
    forall i | 0 <= i < 24 ensures |TimeOptions()[i]| == 5
    {
      SlotDigits(i);
    }
    forall i, j | 0 <= i < j < 24 ensures Less(TimeOptions()[i], TimeOptions()[j])
    {
      SlotDigits(i);
      SlotDigits(j);
      SlotCharsIncrease(i, j);
    }
    forall i, j | 0 <= i < j < 24 ensures TimeOptions()[i] != TimeOptions()[j]
    {
      SlotDigits(i);
      SlotDigits(j);
      SlotCharsIncrease(i, j);
      LessTrichotomy(SlotChars(i), SlotChars(j));
    }
  }

  lemma SlotCharsIncrease(i: nat, j: nat)
    requires i < j < 24
    ensures Less(SlotChars(i), SlotChars(j))
  {
    var a, b := SlotChars(i), SlotChars(j);
    if i / 10 == j / 10 {
      assert i % 10 < j % 10;
      assert a[0] == b[0];
      assert a[1..][0] < b[1..][0];
    } else {
      assert i / 10 < j / 10;
      assert a[0] < b[0];
    }
  }

  /** Reading an option back with `parseInt` gives its hour. */
  lemma SlotHourRoundTrip(i: nat)
    requires i < 24
    ensures ParseInt(Slot(i)) == Some(i)
  {
    SlotDigits(i);
    SlotCharsParse(i);
  }

  lemma {:induction false} SlotCharsParse(i: nat)
    requires i < 24
    ensures ParseInt(SlotChars(i)) == Some(i)
  {
    var a, b := i / 10, i % 10;
    assert 10 * a + b == i;
    assert SlotChars(i) == [DigitChar(a), DigitChar(b), ':', '0', '0'];
    ParseTwoDigits(a, b);
  }

  lemma {:induction false} ParseTwoDigits(a: nat, b: nat)
    requires a < 10 && b < 10
    ensures ParseInt([DigitChar(a), DigitChar(b), ':', '0', '0']) == Some(10 * a + b)
  {
    var d := [DigitChar(a), DigitChar(b)];
    var t := "" + "" + d + ":00";
    assert [DigitChar(a), DigitChar(b), ':', '0', '0'] == t;
    assert ParseInt(t) == Some(Signed("", DigitsValue(d))) by {
      ParseIntReadsDigits("", "", d, ":00");
    }
    assert DigitsValue(d) == 10 * a + b by {
      TwoDigitsValue(a, b);
    }
  }

  lemma {:induction false} TwoDigitsValue(a: nat, b: nat)
    requires a < 10 && b < 10
    ensures DigitsValue([DigitChar(a), DigitChar(b)]) == 10 * a + b
  {
    var d := [DigitChar(a), DigitChar(b)];
    assert d[..1] == [DigitChar(a)];
    SingleDigitValue(DigitChar(a));
  }

  /** The default time "10:00" is the option for hour 10. */
  lemma DefaultTimeOffered()
    ensures TimeOptions()[10] == "10:00"
    ensures "10:00" in TimeOptions()
  {
    SlotDigits(10);
    assert SlotChars(10) == "10:00";
  }

  // ---------------------------------------------------------------------------
  // The header image
  // ---------------------------------------------------------------------------

  /** `profilePicture || advertisingImages?.[0]`. */
  function HeaderImage(star: StarData): (r: Option<string>)
    ensures Truthy(star.profilePicture) ==> r == star.profilePicture
    ensures !Truthy(star.profilePicture) ==> r == FirstImage(star.advertisingImages)
  {
    Or(star.profilePicture, FirstImage(star.advertisingImages))
  }

  /** The header shows an image whenever the star has a picture or a non-empty first
    * advertising image; it comes from one of those two fields. */
  lemma HeaderImageSources(star: StarData)
    ensures Truthy(HeaderImage(star)) <==>
      Truthy(star.profilePicture) || Truthy(FirstImage(star.advertisingImages))
    ensures HeaderImage(star).Some? ==>
      HeaderImage(star) == star.profilePicture
      || (star.advertisingImages.Some? && HeaderImage(star).value in star.advertisingImages.value)
  {
  }
}
