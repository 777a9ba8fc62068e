/**
 * The spectrogram option enums (src/options.rs): each a closed enum whose
 * `VARIANTS` table lists the variants in declaration order, with the value
 * handed to the engine (`to_value`), a default and a display label.
 * `Index` is the discriminant `*self as usize`.
 */
module Options {

  /** `1 << k`. */
  function Pow2(k: nat): (r: nat)
    ensures r >= 1
  {
    if k == 0 then 1 else 2 * Pow2(k - 1)
  }

  lemma Pow2Table()
    ensures Pow2(4) == 16 && Pow2(5) == 32 && Pow2(6) == 64
    ensures Pow2(7) == 128 && Pow2(8) == 256 && Pow2(9) == 512
  {
  }

  lemma {:induction false} Pow2Increasing(a: nat, b: nat)
    requires a < b
    ensures Pow2(a) < Pow2(b)
  {
    if a < b - 1 {
      Pow2Increasing(a, b - 1);
    }
  }

  /** The decimal digits of `n`, as `Display` for an integer writes them. */
  function Decimal(n: nat): (s: string)
    ensures |s| > 0
    ensures (n < 10) == (|s| == 1)
  {
    if n < 10 then [('0' as int + n) as char]
    else Decimal(n / 10) + [('0' as int + n % 10) as char]
  }

  // ------------------------------------------------------------------ FftSize

  /** FFT window size. */
  datatype FftSize = Size512 | Size256 | Size128 | Size64 | Size32 | Size16
  {
    function Index(): nat
    {
      match this
      case Size512 => 0
      case Size256 => 1
      case Size128 => 2
      case Size64 => 3
      case Size32 => 4
      case Size16 => 5
    }

    /** `1 << (9 - index)`: a power of two between 16 and 512. */
    function ToValue(): (r: nat)
      ensures 16 <= r <= 512 && 512 % r == 0
    {
      Pow2Table();
      Pow2(9 - Index())
    }

    /** `Display`: `N=` and then, as `FftSizeLabels` shows, the size in decimal. */
    function Label(): (r: string)
      ensures |r| >= 4 && r[0] == 'N' && r[1] == '='
    {
      match this
      case Size512 => "N=512"
      case Size256 => "N=256"
      case Size128 => "N=128"
      case Size64 => "N=64"
      case Size32 => "N=32"
      case Size16 => "N=16"
    }
  }

  const FFT_SIZE_VARIANTS: seq<FftSize> := [Size512, Size256, Size128, Size64, Size32, Size16]
  const FFT_SIZE_DEFAULT: FftSize := Size512

  /** `VARIANTS` lists every size once, in declaration order. */
  lemma FftSizeVariantsInOrder()
    ensures |FFT_SIZE_VARIANTS| == 6
    ensures forall i :: 0 <= i < |FFT_SIZE_VARIANTS| ==> FFT_SIZE_VARIANTS[i].Index() == i
    ensures forall v: FftSize :: v.Index() < 6 && FFT_SIZE_VARIANTS[v.Index()] == v
  {
  }

  /** The sizes along `VARIANTS` are 512, 256, 128, 64, 32 and 16: `1 << (9 - i)` at position `i`. */
  lemma FftSizeValues()
    ensures forall i :: 0 <= i < 6 ==> FFT_SIZE_VARIANTS[i].ToValue() == Pow2(9 - i)
    ensures forall i :: 0 <= i < 6 ==> FFT_SIZE_VARIANTS[i].ToValue() == [512, 256, 128, 64, 32, 16][i]
  {
    Pow2Table();
  }

  /** `to_value` strictly decreases along `VARIANTS`. */
  lemma FftSizeDecreasing()
    ensures forall i, j :: 0 <= i < j < 6 ==> FFT_SIZE_VARIANTS[i].ToValue() > FFT_SIZE_VARIANTS[j].ToValue()
  {
    forall i, j | 0 <= i < j < 6
      ensures FFT_SIZE_VARIANTS[i].ToValue() > FFT_SIZE_VARIANTS[j].ToValue()
    {
      FftSizeValues();
      Pow2Increasing(9 - j, 9 - i);
    }
  }

  /** Distinct sizes hand the engine distinct FFT lengths. */
  lemma FftSizeInjective(a: FftSize, b: FftSize)
    requires a.ToValue() == b.ToValue()
    ensures a == b
  {
    Pow2Table();
  }

  /** The label is `N=` followed by the size. */
  lemma FftSizeLabels(v: FftSize)
    ensures v.Label() == "N=" + Decimal(v.ToValue())
  {
    Pow2Table();
    match v
    case Size512 => assert Decimal(512) == "512"; assert "N=512" == "N=" + "512";
    case Size256 => assert Decimal(256) == "256"; assert "N=256" == "N=" + "256";
    case Size128 => assert Decimal(128) == "128"; assert "N=128" == "N=" + "128";
    case Size64 => assert Decimal(64) == "64"; assert "N=64" == "N=" + "64";
    case Size32 => assert Decimal(32) == "32"; assert "N=32" == "N=" + "32";
    case Size16 => assert Decimal(16) == "16"; assert "N=16" == "N=" + "16";
  }

  // ------------------------------------------------------------------- DbGain

  /** Gain value adjustment. */
  datatype DbGain = Gain0 | Gain3 | Gain6 | Gain9 | Gain12 | Gain15 | Gain18 | Gain21 | Gain24 | Gain27 | Gain30
  {
    function Index(): nat
    {
      match this
      case Gain0 => 0
      case Gain3 => 1
      case Gain6 => 2
      case Gain9 => 3
      case Gain12 => 4
      case Gain15 => 5
      case Gain18 => 6
      case Gain21 => 7
      case Gain24 => 8
      case Gain27 => 9
      case Gain30 => 10
    }

    /** `3 * index` dB: a multiple of 3 from 0 to 30. */
    function ToValue(): (r: nat)
      ensures r <= 30 && r % 3 == 0
    {
      3 * Index()
    }

    /** `Display`: a signed gain in dB; `DbGainLabels` shows the digits are the value. */
    function Label(): (r: string)
      ensures |r| >= 5 && r[0] == '+' && r[|r| - 3] == ' ' && r[|r| - 2] == 'd' && r[|r| - 1] == 'B'
    {
      match this
      case Gain0 => "+0 dB"
      case Gain3 => "+3 dB"
      case Gain6 => "+6 dB"
      case Gain9 => "+9 dB"
      case Gain12 => "+12 dB"
      case Gain15 => "+15 dB"
      case Gain18 => "+18 dB"
      case Gain21 => "+21 dB"
      case Gain24 => "+24 dB"
      case Gain27 => "+27 dB"
      case Gain30 => "+30 dB"
    }
  }

  const DB_GAIN_VARIANTS: seq<DbGain> := [Gain0, Gain3, Gain6, Gain9, Gain12, Gain15, Gain18, Gain21, Gain24, Gain27, Gain30]
  const DB_GAIN_DEFAULT: DbGain := Gain6

  lemma DbGainVariantsInOrder()
    ensures |DB_GAIN_VARIANTS| == 11
    ensures forall i :: 0 <= i < |DB_GAIN_VARIANTS| ==> DB_GAIN_VARIANTS[i].Index() == i
    ensures forall v: DbGain :: v.Index() < 11 && DB_GAIN_VARIANTS[v.Index()] == v
  {
  }

  /** The gains along `VARIANTS` are 0, 3, ..., 30 dB, strictly increasing, so `to_value` is injective. */
  lemma DbGainValues()
    ensures forall i :: 0 <= i < 11 ==> DB_GAIN_VARIANTS[i].ToValue() == 3 * i
    ensures forall i, j :: 0 <= i < j < 11 ==> DB_GAIN_VARIANTS[i].ToValue() < DB_GAIN_VARIANTS[j].ToValue()
    ensures forall a: DbGain, b: DbGain :: a.ToValue() == b.ToValue() ==> a == b
  {
    DbGainVariantsInOrder();
    forall a: DbGain, b: DbGain | a.ToValue() == b.ToValue() ensures a == b {
      assert DB_GAIN_VARIANTS[a.Index()] == a && DB_GAIN_VARIANTS[b.Index()] == b;
    }
  }

  /** The label is `+`, the gain, and ` dB`. */
  lemma DbGainLabels(v: DbGain)
    ensures v.Label() == "+" + Decimal(v.ToValue()) + " dB"
  {
    match v
    case Gain0 => assert Decimal(0) == "0"; assert "+0 dB" == "+" + "0" + " dB";
    case Gain3 => assert Decimal(3) == "3"; assert "+3 dB" == "+" + "3" + " dB";
    case Gain6 => assert Decimal(6) == "6"; assert "+6 dB" == "+" + "6" + " dB";
    case Gain9 => assert Decimal(9) == "9"; assert "+9 dB" == "+" + "9" + " dB";
    case Gain12 => assert Decimal(12) == "12"; assert "+12 dB" == "+" + "12" + " dB";
    case Gain15 => assert Decimal(15) == "15"; assert "+15 dB" == "+" + "15" + " dB";
    case Gain18 => assert Decimal(18) == "18"; assert "+18 dB" == "+" + "18" + " dB";
    case Gain21 => assert Decimal(21) == "21"; assert "+21 dB" == "+" + "21" + " dB";
    case Gain24 => assert Decimal(24) == "24"; assert "+24 dB" == "+" + "24" + " dB";
    case Gain27 => assert Decimal(27) == "27"; assert "+27 dB" == "+" + "27" + " dB";
    case Gain30 => assert Decimal(30) == "30"; assert "+30 dB" == "+" + "30" + " dB";
  }

  // ------------------------------------------------------------------ DbRange

  /** Range value adjustment. */
  datatype DbRange =
    | Range6 | Range12 | Range18 | Range24 | Range30 | Range36 | Range42 | Range48
    | Range54 | Range60 | Range66 | Range72 | Range78 | Range84 | Range90
  {
    function Index(): nat
    {
      match this
      case Range6 => 0
      case Range12 => 1
      case Range18 => 2
      case Range24 => 3
      case Range30 => 4
      case Range36 => 5
      case Range42 => 6
      case Range48 => 7
      case Range54 => 8
      case Range60 => 9
      case Range66 => 10
      case Range72 => 11
      case Range78 => 12
      case Range84 => 13
      case Range90 => 14
    }

    /** `6 * (1 + index)` dB: a multiple of 6 from 6 to 90. */
    function ToValue(): (r: nat)
      ensures 6 <= r <= 90 && r % 6 == 0
    {
      6 * (1 + Index())
    }

    /** `Display`: a range in dB; `DbRangeLabels` shows the digits are the value. */
    function Label(): (r: string)
      ensures |r| >= 4 && r[|r| - 3] == ' ' && r[|r| - 2] == 'd' && r[|r| - 1] == 'B'
    {
      match this
      case Range6 => "6 dB"
      case Range12 => "12 dB"
      case Range18 => "18 dB"
      case Range24 => "24 dB"
      case Range30 => "30 dB"
      case Range36 => "36 dB"
      case Range42 => "42 dB"
      case Range48 => "48 dB"
      case Range54 => "54 dB"
      case Range60 => "60 dB"
      case Range66 => "66 dB"
      case Range72 => "72 dB"
      case Range78 => "78 dB"
      case Range84 => "84 dB"
      case Range90 => "90 dB"
    }
  }

  const DB_RANGE_VARIANTS: seq<DbRange> := [
    Range6, Range12, Range18, Range24, Range30, Range36, Range42, Range48,
    Range54, Range60, Range66, Range72, Range78, Range84, Range90
  ]
  const DB_RANGE_DEFAULT: DbRange := Range30

  lemma DbRangeVariantsInOrder()
    ensures |DB_RANGE_VARIANTS| == 15
    ensures forall i :: 0 <= i < |DB_RANGE_VARIANTS| ==> DB_RANGE_VARIANTS[i].Index() == i
    ensures forall v: DbRange :: v.Index() < 15 && DB_RANGE_VARIANTS[v.Index()] == v
  {
  }

  /** The ranges along `VARIANTS` are 6, 12, ..., 90 dB, strictly increasing, so `to_value` is injective. */
  lemma DbRangeValues()
    ensures forall i :: 0 <= i < 15 ==> DB_RANGE_VARIANTS[i].ToValue() == 6 * (i + 1)
    ensures forall i, j :: 0 <= i < j < 15 ==> DB_RANGE_VARIANTS[i].ToValue() < DB_RANGE_VARIANTS[j].ToValue()
    ensures forall a: DbRange, b: DbRange :: a.ToValue() == b.ToValue() ==> a == b
  {
    DbRangeVariantsInOrder();
    forall a: DbRange, b: DbRange | a.ToValue() == b.ToValue() ensures a == b {
      assert DB_RANGE_VARIANTS[a.Index()] == a && DB_RANGE_VARIANTS[b.Index()] == b;
    }
  }

  /** The label is the range followed by ` dB`. */
  lemma DbRangeLabels(v: DbRange)
    ensures v.Label() == Decimal(v.ToValue()) + " dB"
  {
    if v.Index() < 8 {
      DbRangeLabelsUpTo48(v);
    } else {
      DbRangeLabelsFrom54(v);
    }
  }

  lemma DbRangeLabelsUpTo48(v: DbRange)
    requires v.Index() < 8
    ensures v.Label() == Decimal(v.ToValue()) + " dB"
  {
    if v == Range6 {
      assert Decimal(6) == "6"; assert "6 dB" == "6" + " dB";
    } else if v == Range12 {
      assert Decimal(12) == "12"; assert "12 dB" == "12" + " dB";
    } else if v == Range18 {
      assert Decimal(18) == "18"; assert "18 dB" == "18" + " dB";
    } else if v == Range24 {
      assert Decimal(24) == "24"; assert "24 dB" == "24" + " dB";
    } else if v == Range30 {
      assert Decimal(30) == "30"; assert "30 dB" == "30" + " dB";
    } else if v == Range36 {
      assert Decimal(36) == "36"; assert "36 dB" == "36" + " dB";
    } else if v == Range42 {
      assert Decimal(42) == "42"; assert "42 dB" == "42" + " dB";
    } else {
      assert v == Range48;
      assert Decimal(48) == "48"; assert "48 dB" == "48" + " dB";
    }
  }

  lemma DbRangeLabelsFrom54(v: DbRange)
    requires v.Index() >= 8
    ensures v.Label() == Decimal(v.ToValue()) + " dB"
  {
    if v == Range54 {
      assert Decimal(54) == "54"; assert "54 dB" == "54" + " dB";
    } else if v == Range60 {
      assert Decimal(60) == "60"; assert "60 dB" == "60" + " dB";
    } else if v == Range66 {
      assert Decimal(66) == "66"; assert "66 dB" == "66" + " dB";
    } else if v == Range72 {
      assert Decimal(72) == "72"; assert "72 dB" == "72" + " dB";
    } else if v == Range78 {
      assert Decimal(78) == "78"; assert "78 dB" == "78" + " dB";
    } else if v == Range84 {
      assert Decimal(84) == "84"; assert "84 dB" == "84" + " dB";
    } else {
      assert v == Range90;
      assert Decimal(90) == "90"; assert "90 dB" == "90" + " dB";
    }
  }

  // ----------------------------------------------------------------- Colormap

  /** Colormap for signal strength. */
  datatype Colormap =
    | Cube1 | Viridis | Plasma | Inferno | Magma | Hot | Afmhot
    | GistHeat | Turbo | Parabola | Grayscale | Roentgen | Phosphor
  {
    /** The discriminant, which is the position in `VARIANTS`. */
    function ToValue(): (r: nat)
      ensures r < |COLORMAP_VARIANTS| && COLORMAP_VARIANTS[r] == this
    {
      match this
      case Cube1 => 0
      case Viridis => 1
      case Plasma => 2
      case Inferno => 3
      case Magma => 4
      case Hot => 5
      case Afmhot => 6
      case GistHeat => 7
      case Turbo => 8
      case Parabola => 9
      case Grayscale => 10
      case Roentgen => 11
      case Phosphor => 12
    }

    /** `Display`: the capitalised name of the variant. */
    function Label(): (r: string)
      ensures |r| > 0 && 'A' <= r[0] <= 'Z'
    {
      match this
      case Cube1 => "Cube1"
      case Viridis => "Viridis"
      case Plasma => "Plasma"
      case Inferno => "Inferno"
      case Magma => "Magma"
      case Hot => "Hot"
      case Afmhot => "Afm-Hot"
      case GistHeat => "Gist-Heat"
      case Turbo => "Turbo"
      case Parabola => "Parabola"
      case Grayscale => "Grayscale"
      case Roentgen => "Roentgen"
      case Phosphor => "Phosphor"
    }
  }

  const COLORMAP_VARIANTS: seq<Colormap> := [
    Cube1, Viridis, Plasma, Inferno, Magma, Hot, Afmhot,
    GistHeat, Turbo, Parabola, Grayscale, Roentgen, Phosphor
  ]
  const COLORMAP_DEFAULT: Colormap := Cube1

  /** `VARIANTS[i].to_value() == i`: the table is in declaration order. */
  lemma ColormapVariantsInOrder()
    ensures |COLORMAP_VARIANTS| == 13
    ensures forall i :: 0 <= i < |COLORMAP_VARIANTS| ==> COLORMAP_VARIANTS[i].ToValue() == i
  {
  }

  // ---------------------------------------------------------- WindowFunctions

  /** Window function for sampling. */
  datatype WindowFunctions =
    | Rectangular | Bartlett | Hann | Hamming | Blackman | BlackmanHarris
    | BlackmanNuttall | FlatTop | BartlettHann | Cosine | Lanczos | Gaussian
  {
    /** The discriminant, which is the position in `VARIANTS`. */
    function ToValue(): (r: nat)
      ensures r < |WINDOW_FUNCTIONS_VARIANTS| && WINDOW_FUNCTIONS_VARIANTS[r] == this
    {
      match this
      case Rectangular => 0
      case Bartlett => 1
      case Hann => 2
      case Hamming => 3
      case Blackman => 4
      case BlackmanHarris => 5
      case BlackmanNuttall => 6
      case FlatTop => 7
      case BartlettHann => 8
      case Cosine => 9
      case Lanczos => 10
      case Gaussian => 11
    }

    /** `Display`: the capitalised name of the variant. */
    function Label(): (r: string)
      ensures |r| > 0 && 'A' <= r[0] <= 'Z'
    {
      match this
      case Rectangular => "Rectangular"
      case Bartlett => "Bartlett"
      case Hann => "Hann"
      case Hamming => "Hamming"
      case Blackman => "Blackman"
      case BlackmanHarris => "Blackman-Harris"
      case BlackmanNuttall => "Blackman-Nuttall"
      case FlatTop => "Flat-Top"
      case BartlettHann => "Bartlett-Hann"
      case Cosine => "Cosine"
      case Lanczos => "Lanczos"
      case Gaussian => "Gaussian"
    }
  }

  const WINDOW_FUNCTIONS_VARIANTS: seq<WindowFunctions> := [
    Rectangular, Bartlett, Hann, Hamming, Blackman, BlackmanHarris,
    BlackmanNuttall, FlatTop, BartlettHann, Cosine, Lanczos, Gaussian
  ]
  const WINDOW_FUNCTIONS_DEFAULT: WindowFunctions := BlackmanHarris

  lemma WindowFunctionsVariantsInOrder()
    ensures |WINDOW_FUNCTIONS_VARIANTS| == 12
    ensures forall i :: 0 <= i < |WINDOW_FUNCTIONS_VARIANTS| ==> WINDOW_FUNCTIONS_VARIANTS[i].ToValue() == i
  {
  }

  // -------------------------------------------------------------- Orientation

  /** Display orientation. */
  datatype Orientation = Spectrogram | Waterfall | Geyser
  {
    /** The discriminant, which is the position in `VARIANTS`. */
    function ToValue(): (r: nat)
      ensures r < |ORIENTATION_VARIANTS| && ORIENTATION_VARIANTS[r] == this
    {
      match this
      case Spectrogram => 0
      case Waterfall => 1
      case Geyser => 2
    }

    /** `Display`: the capitalised name of the variant. */
    function Label(): (r: string)
      ensures |r| > 0 && 'A' <= r[0] <= 'Z'
    {
      match this
      case Spectrogram => "Spectrogram"
      case Waterfall => "Waterfall"
      case Geyser => "Geyser"
    }
  }

  const ORIENTATION_VARIANTS: seq<Orientation> := [Spectrogram, Waterfall, Geyser]
  const ORIENTATION_DEFAULT: Orientation := Spectrogram

  lemma OrientationVariantsInOrder()
    ensures |ORIENTATION_VARIANTS| == 3
    ensures forall i :: 0 <= i < |ORIENTATION_VARIANTS| ==> ORIENTATION_VARIANTS[i].ToValue() == i
  {
  }

  // ----------------------------------------------------------------- defaults

  /** The defaults hand the engine a 512-point FFT, +6 dB gain, a 30 dB range, the first colormap and orientation, and the Blackman-Harris window (entry 5). */
  lemma DefaultValues()
    ensures FFT_SIZE_DEFAULT.ToValue() == 512
    ensures DB_GAIN_DEFAULT.ToValue() == 6
    ensures DB_RANGE_DEFAULT.ToValue() == 30
    ensures COLORMAP_DEFAULT.ToValue() == 0
    ensures WINDOW_FUNCTIONS_DEFAULT.ToValue() == 5 && WINDOW_FUNCTIONS_DEFAULT.Label() == "Blackman-Harris"
    ensures ORIENTATION_DEFAULT.ToValue() == 0
  {
  }
}
