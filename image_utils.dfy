/**
 * Client-side image utilities: down-scaling an uploaded image before it is
 * cropped (`compressImage`) and the human-readable file size (`formatFileSize`).
 */
module ImageUtils {
  import opened Wrappers
  import opened Strings
  import opened Transform

  datatype Format = Jpeg | Png | Webp

  function FormatName(f: Format): string
  {
    match f
    case Jpeg => "jpeg"
    case Png => "png"
    case Webp => "webp"
  }

  /** The MIME type handed to the encoder. */
  function MimeType(f: Format): (m: string)
    ensures StartsWith(m, "image/")
    ensures m[|"image/"|..] == FormatName(f)
  {
    "image/" + FormatName(f)
  }

  /** Different formats are encoded under different MIME types. */
  lemma MimeTypeInjective(f: Format, g: Format)
    ensures MimeType(f) == MimeType(g) ==> f == g
  {
    if MimeType(f) == MimeType(g) {
      assert FormatName(f) == MimeType(f)[6..] == MimeType(g)[6..] == FormatName(g);
    }
  }

  /** The options a caller may pass; an omitted option is `None`. */
  datatype CompressOptions = CompressOptions(
    maxWidth: Option<real>, maxHeight: Option<real>, quality: Option<real>, format: Option<Format>)

  datatype Settings = Settings(maxWidth: real, maxHeight: real, quality: real, format: Format)

  /** The destructuring defaults: 1200 × 1200, quality 0.8, JPEG. */
  function ResolveOptions(o: CompressOptions): (s: Settings)
    ensures s.maxWidth == (if o.maxWidth.Some? then o.maxWidth.value else 1200.0)
    ensures s.maxHeight == (if o.maxHeight.Some? then o.maxHeight.value else 1200.0)
    ensures s.quality == (if o.quality.Some? then o.quality.value else 0.8)
    ensures s.format == (if o.format.Some? then o.format.value else Jpeg)
  {
    Settings(o.maxWidth.GetOr(1200.0), o.maxHeight.GetOr(1200.0), o.quality.GetOr(0.8), o.format.GetOr(Jpeg))
  }

  function Min(a: real, b: real): real { if a <= b then a else b }

  /** The down-scale rule: an image within both bounds keeps its size; otherwise both sides
      are multiplied by the smaller of the two bound ratios. The result fits, keeps the
      aspect ratio, is never larger than the original and meets one bound exactly. */
  function FitWithin(width: real, height: real, maxWidth: real, maxHeight: real): (fit: (real, real))
    requires width > 0.0 && height > 0.0 && maxWidth > 0.0 && maxHeight > 0.0
    ensures width <= maxWidth && height <= maxHeight ==> fit.0 == width && fit.1 == height
    ensures fit.0 <= maxWidth && fit.1 <= maxHeight
    ensures 0.0 < fit.0 <= width && 0.0 < fit.1 <= height
    ensures fit.0 * height == fit.1 * width
    ensures !(width <= maxWidth && height <= maxHeight) ==> fit.0 == maxWidth || fit.1 == maxHeight
  {
    if width > maxWidth || height > maxHeight then
      var rw, rh := maxWidth / width, maxHeight / height;
      var ratio := Min(rw, rh);
      RatioBelowOne(width, maxWidth, height, maxHeight, ratio);
      ScaleBelow(width, rw, ratio, maxWidth);
      ScaleBelow(height, rh, ratio, maxHeight);
      ProductSwap(width, height, ratio);
      (width * ratio, height * ratio)
    else
      (width, height)
  }

  lemma RatioBelowOne(width: real, maxWidth: real, height: real, maxHeight: real, ratio: real)
    requires width > 0.0 && height > 0.0 && maxWidth > 0.0 && maxHeight > 0.0
    requires width > maxWidth || height > maxHeight
    requires ratio == Min(maxWidth / width, maxHeight / height)
    ensures 0.0 < ratio < 1.0
  {
    if width > maxWidth {
      QuotientBelowOne(maxWidth, width);
    } else {
      QuotientBelowOne(maxHeight, height);
    }
  }

  lemma QuotientBelowOne(a: real, b: real)
    requires 0.0 < a < b
    ensures 0.0 < a / b
    ensures a / b < 1.0
  {
    var q := a / b;
    assert q * b == a;
    if q >= 1.0 {
      AtLeastItself(q, b);
    }
  }

  lemma AtLeastItself(q: real, b: real)
    requires q >= 1.0 && b > 0.0
    ensures q * b >= b
  {
    assert q * b == b + (q - 1.0) * b;
  }

  lemma ScaleBelow(x: real, r: real, ratio: real, bound: real)
    requires x > 0.0 && r == bound / x && 0.0 < ratio <= r
    ensures 0.0 < x * ratio <= bound
    ensures ratio < 1.0 ==> x * ratio < x
    ensures ratio == r ==> x * ratio == bound
  {
  }

  lemma ProductSwap(a: real, b: real, k: real)
    ensures (a * k) * b == (b * k) * a
  {
  }

  /** The image as decoded by the browser, when decoding succeeds. */
  datatype Dimensions = Dimensions(width: real, height: real)

  datatype Outcome = Resolved(url: DataUrl) | Rejected(message: string)

  /** `compressImage`: `decoded` is the loaded image (`None` when loading fails) and
      `hasContext` whether the canvas yields a 2D context. */
  method CompressImage(decoded: Option<Dimensions>, hasContext: bool, options: CompressOptions)
    returns (r: Outcome)
    requires decoded.Some? ==> decoded.value.width > 0.0 && decoded.value.height > 0.0
    requires ResolveOptions(options).maxWidth > 0.0 && ResolveOptions(options).maxHeight > 0.0
    ensures decoded.None? ==> r == Rejected("Could not load image")
    ensures decoded.Some? && !hasContext ==> r == Rejected("Could not get canvas context")
    ensures decoded.Some? && hasContext ==> r.Resolved?
    ensures r.Resolved? ==>
      var s := ResolveOptions(options);
      var d := decoded.value;
      && r.url.mimeType == MimeType(s.format) && r.url.quality == s.quality
      && r.url.width as real <= s.maxWidth && r.url.height as real <= s.maxHeight
      && r.url.width as real <= d.width && r.url.height as real <= d.height
      && (d.width <= s.maxWidth && d.height <= s.maxHeight ==>
            r.url.width == d.width.Floor && r.url.height == d.height.Floor)
      && |r.url.draws| == 1 && r.url.draws[0].ctm == Identity && r.url.draws[0].at == Point(0.0, 0.0)
  ensures r.Resolved? ==>
      var s := ResolveOptions(options);
      var fit := FitWithin(decoded.value.width, decoded.value.height, s.maxWidth, s.maxHeight);
      && r.url.width == fit.0.Floor && r.url.height == fit.1.Floor
      && r.url.draws[0].width == fit.0 && r.url.draws[0].height == fit.1
  {
    var s := ResolveOptions(options);
    var canvas := new Canvas(300.0, 150.0);
    if decoded.None? {
      return Rejected("Could not load image");
    }
    var fit := FitWithin(decoded.value.width, decoded.value.height, s.maxWidth, s.maxHeight);
    var width, height := fit.0, fit.1;
    canvas.Resize(width, height);
    if hasContext {
      canvas.DrawImage(width, height, Point(0.0, 0.0));
      var url := canvas.ToDataUrl(MimeType(s.format), s.quality);
      r := Resolved(url);
    } else {
      r := Rejected("Could not get canvas context");
    }
  }

  // ---------------------------------------------------------------- formatFileSize

  function Pow(b: nat, e: nat): nat
  {
    if e == 0 then 1 else b * Pow(b, e - 1)
  }

  lemma {:induction false} PowPositive(b: nat, e: nat)
    requires b >= 1
    ensures Pow(b, e) >= 1
  {
    if e > 0 {
      PowPositive(b, e - 1);
    }
  }

  /** The unit index: the exponent of the largest power of 1024 not above `bytes`. */
  function UnitIndex(bytes: nat): (i: nat)
    requires bytes >= 1
    ensures Pow(1024, i) <= bytes < Pow(1024, i + 1)
  {
    if bytes < 1024 then 0
    else
      var j := UnitIndex(bytes / 1024);
      assert Pow(1024, j + 1) <= bytes by {
        assert Pow(1024, j + 1) == 1024 * Pow(1024, j);
      }
      assert bytes < Pow(1024, j + 2) by {
        assert Pow(1024, j + 2) == 1024 * Pow(1024, j + 1);
      }
      j + 1
  }

  /** The bracket of `UnitIndex` determines it. */
  lemma {:induction false} UnitIndexUnique(bytes: nat, i: nat)
    requires Pow(1024, i) <= bytes < Pow(1024, i + 1)
    ensures UnitIndex(bytes) == i
  {
    PowPositive(1024, i);
    var j := UnitIndex(bytes);
    if j < i {
      PowMonotone(j + 1, i);
    } else if i < j {
      PowMonotone(i + 1, j);
    }
  }

  lemma {:induction false} PowMonotone(m: nat, n: nat)
    requires m <= n
    ensures Pow(1024, m) <= Pow(1024, n)
  {
    if m < n {
      PowMonotone(m, n - 1);
      PowPositive(1024, n - 1);
    }
  }

  const Units: seq<string> := ["Bytes", "KB", "MB", "GB"]

  /** `sizes[i]`: an index past the table reads `undefined`, which prints as such. */
  function UnitName(i: nat): string
  {
    if i < |Units| then Units[i] else "undefined"
  }

  /** `toFixed(2)` of `bytes / 1024^i`, counted in hundredths: the nearest hundredth,
      a tie going up. */
  function Hundredths(bytes: nat, i: nat): (h: nat)
    ensures 2 * Pow(1024, i) * h <= 200 * bytes + Pow(1024, i) < 2 * Pow(1024, i) * (h + 1)
  {
    PowPositive(1024, i);
    var p := Pow(1024, i);
    var h := (200 * bytes + p) / (2 * p);
    DivBracket(200 * bytes + p, 2 * p);
    h
  }

  lemma DivBracket(x: nat, d: nat)
    requires d > 0
    ensures d * (x / d) <= x < d * (x / d + 1)
  {
  }

  /** The fraction digits JavaScript prints for `f` hundredths: none, one or two, and
      never a trailing zero. */
  function FractionText(f: nat): string
    requires f < 100
  {
    if f == 0 then "" else "." + FractionDigits(f)
  }

  function FractionDigits(f: nat): string
    requires 0 < f < 100
  {
    if f % 10 == 0 then [DigitChar(f / 10)] else [DigitChar(f / 10), DigitChar(f % 10)]
  }

  /** The fraction digits are digits, read back as `f` hundredths, and do not end in zero. */
  lemma FractionDigitsValue(f: nat)
    requires 0 < f < 100
    ensures var d := FractionDigits(f);
      && AllDigits(d) && '.' !in d && d[|d| - 1] != '0' && Pow(10, |d|) >= 1
      && ParseNat(d) as real / Pow(10, |d|) as real == f as real / 100.0
  {
    var d := FractionDigits(f);
    PowPositive(10, |d|);
    assert d[..|d| - 1][..0] == [];
    if f % 10 == 0 {
      assert ParseNat(d) == f / 10;
    } else {
      assert d[..|d| - 1] == [DigitChar(f / 10)];
      assert ParseNat(d[..|d| - 1]) == f / 10;
      assert ParseNat(d) == 10 * (f / 10) + f % 10;
    }
  }

  /** `parseFloat(x.toFixed(2))` printed back: a number of hundredths as decimal text. */
  function DecimalText(h: nat): string
  {
    NatToString(h / 100) + FractionText(h % 100)
  }

  /** `formatFileSize`. */
  function FormatFileSize(bytes: nat): (text: string)
    ensures bytes == 0 ==> text == "0 Bytes"
    ensures bytes > 0 ==> var unit := " " + UnitName(UnitIndex(bytes));
      |unit| < |text| && text[|text| - |unit|..] == unit
  {
    if bytes == 0 then "0 Bytes"
    else
      var i := UnitIndex(bytes);
      var number := DecimalText(Hundredths(bytes, i));
      NumberTextNonEmpty(Hundredths(bytes, i));
      var text := number + " " + UnitName(i);
      assert text[|number|..] == " " + UnitName(i);
      text
  }

  /** Before the unit, a non-zero size prints a number that reads back as the size in that
      unit to the nearest hundredth. */
  lemma FormatFileSizeReadsBack(bytes: nat)
    requires bytes > 0
    ensures var text := FormatFileSize(bytes);
      var unit := " " + UnitName(UnitIndex(bytes));
      ReadsBackAs(text[..|text| - |unit|], Hundredths(bytes, UnitIndex(bytes)))
  {
    var i := UnitIndex(bytes);
    var number := DecimalText(Hundredths(bytes, i));
    DecimalTextRoundTrip(Hundredths(bytes, i));
    var text := number + " " + UnitName(i);
    assert text[..|number|] == number;
  }

  lemma NumberTextNonEmpty(h: nat)
    ensures |DecimalText(h)| > 0
  {
    assert |NatToString(h / 100)| > 0;
  }

  /** Sizes below 1 KiB are printed as a whole number of bytes. */
  lemma SmallSizesInBytes(bytes: nat)
    requires 1 <= bytes < 1024
    ensures FormatFileSize(bytes) == NatToString(bytes) + " Bytes"
  {
    assert UnitIndex(bytes) == 0;
    SmallHundredths(bytes);
    WholeHundredths(bytes);
    assert DecimalText(Hundredths(bytes, 0)) == NatToString(bytes);
    assert UnitName(0) == "Bytes";
    assert FormatFileSize(bytes) == DecimalText(Hundredths(bytes, 0)) + " " + UnitName(0);
  }

  /** Below 1 KiB the size is a whole number of bytes: exactly `100 * bytes` hundredths. */
  lemma SmallHundredths(bytes: nat)
    ensures Hundredths(bytes, 0) == 100 * bytes
  {
    assert Pow(1024, 0) == 1;
    assert bytes * 1 == bytes;
    HundredthsOfMultiple(bytes, 1, Hundredths(bytes, 0));
  }

  lemma WholeHundredths(n: nat)
    ensures DecimalText(100 * n) == NatToString(n)
  {
    assert (100 * n) / 100 == n && (100 * n) % 100 == 0;
  }

  /** A whole number of units below 1024 is printed without decimals in that unit. */
  lemma {:induction false} ExactMultiples(n: nat, i: nat)
    requires 1 <= n < 1024 && i < 4
    ensures FormatFileSize(n * Pow(1024, i)) == NatToString(n) + " " + Units[i]
  {
    var p := Pow(1024, i);
    PowPositive(1024, i);
    assert Pow(1024, i + 1) == 1024 * p;
    BracketOfMultiple(n, p);
    UnitIndexUnique(n * p, i);
    var h := Hundredths(n * p, i);
    HundredthsOfMultiple(n, p, h);
    WholeHundredths(n);
  }

  lemma BracketOfMultiple(n: nat, p: nat)
    requires 1 <= n < 1024 && p >= 1
    ensures p <= n * p < 1024 * p
  {
  }

  lemma HundredthsOfMultiple(n: nat, p: nat, h: nat)
    requires p >= 1
    requires 2 * p * h <= 200 * (n * p) + p < 2 * p * (h + 1)
    ensures h == 100 * n
  {
    if h < 100 * n {
      assert 2 * p * (h + 1) <= 2 * p * (100 * n) by {
        MulMonotone(2 * p, h + 1, 100 * n);
      }
    } else if h > 100 * n {
      assert 2 * p * (100 * n + 1) <= 2 * p * h by {
        MulMonotone(2 * p, 100 * n + 1, h);
      }
    }
  }

  lemma MulMonotone(k: nat, a: nat, b: nat)
    requires a <= b
    ensures k * a <= k * b
  {
  }

  /** The printed number lies between 1 and 1024 (1024 itself when rounding carries up,
      as for 1048575 bytes, printed "1024 KB"). */
  lemma {:induction false} NumberBetweenOneAnd1024(bytes: nat)
    requires bytes >= 1
    ensures 100 <= Hundredths(bytes, UnitIndex(bytes)) <= 102400
  {
    var i := UnitIndex(bytes);
    var p := Pow(1024, i);
    var h := Hundredths(bytes, i);
    PowPositive(1024, i);
    assert Pow(1024, i + 1) == 1024 * p;
    if h < 100 {
      MulMonotone(2 * p, h + 1, 100);
    }
    if h > 102400 {
      MulMonotone(2 * p, 102401, h);
    }
  }

  /** Reading decimal text back: the whole part plus the fraction digits, if any. */
  function ParseDecimal(s: string): real
    requires var parts := Split(s, '.'); |parts| <= 2 && (forall k :: 0 <= k < |parts| ==> AllDigits(parts[k]))
  {
    var parts := Split(s, '.');
    if |parts| == 1 then ParseNat(parts[0]) as real
    else
      PowPositive(10, |parts[1]|);
      ParseNat(parts[0]) as real + ParseNat(parts[1]) as real / Pow(10, |parts[1]|) as real
  }

  /** `s` splits at the point into at most two runs of digits, reads back as `h`
      hundredths, has a point exactly when `h` is not whole and then ends in no zero. */
  predicate ReadsBackAs(s: string, h: nat)
  {
    var parts := Split(s, '.');
    && |parts| <= 2 && (forall k :: 0 <= k < |parts| ==> AllDigits(parts[k]))
    && ParseDecimal(s) == h as real / 100.0
    && ('.' in s <==> h % 100 != 0)
    && ('.' in s ==> s[|s| - 1] != '0')
  }

  /** The printed number reads back as the rounded value, and has no trailing zero after a
      decimal point. */
  lemma DecimalTextRoundTrip(h: nat)
    ensures ReadsBackAs(DecimalText(h), h)
  {
    if h % 100 == 0 {
      WholeTextReadsBack(h);
    } else {
      FractionTextReadsBack(h);
    }
  }

  lemma WholeTextReadsBack(h: nat)
    requires h % 100 == 0
    ensures ReadsBackAs(DecimalText(h), h)
  {
    var whole := NatToString(h / 100);
    assert '.' !in whole by {
      assert AllDigits(whole);
    }
    ParseNatToString(h / 100);
    SplitWithoutSeparator(whole, '.');
    assert DecimalText(h) == whole;
    HundredthsSum(h, h / 100, 0);
  }

  lemma FractionTextReadsBack(h: nat)
    requires h % 100 != 0
    ensures ReadsBackAs(DecimalText(h), h)
  {
    var w, f := h / 100, h % 100;
    var whole := NatToString(w);
    assert '.' !in whole by {
      assert AllDigits(whole);
    }
    ParseNatToString(w);
    var s := DecimalText(h);
    var digits := FractionDigits(f);
    FractionDigitsValue(f);
    assert s == whole + ['.'] + digits;
    SplitAtSeparator(whole, '.', digits);
    SplitWithoutSeparator(digits, '.');
    assert Split(s, '.') == [whole, digits];
    HundredthsSum(h, w, f);
    assert s[|whole|] == '.';
  }

  lemma HundredthsSum(h: nat, w: nat, f: nat)
    requires w == h / 100 && f == h % 100
    ensures w as real + f as real / 100.0 == h as real / 100.0
  {
  }


  /** From 1 TiB on the unit index runs past the four-entry unit table. */
  lemma {:induction false} TebibytesHaveNoUnit(bytes: nat)
    requires bytes >= Pow(1024, 4)
    ensures UnitIndex(bytes) >= 4 && UnitName(UnitIndex(bytes)) == "undefined"
  {
    var i := UnitIndex(bytes);
    if i < 4 {
      PowMonotone(i + 1, 4);
    }
  }
}
