/**
 * The word-cloud renderer of the display view (component `WordCloud`).
 *
 * Each time its word list, size or theme changes it counts the words into an
 * exact-match frequency table, gives every distinct word a font size between
 * 16 and 72 proportional to its share of the largest count, and hands the sized
 * words to the external layout engine. When the engine reports the placed
 * words, it draws them as text glyphs coloured by their position in the placed
 * list. A change of question clears the drawing.
 *
 * The layout engine itself is not modelled: a started layout is a pending
 * request, and its completion is a call of `CloudView.LayoutEnd` with any list
 * of placed words the engine could produce for that request.
 */
module Cloud {
  import opened Wrappers

  datatype Theme = Light | Dark

  const MinSize: real := 16.0
  const MaxSize: real := 72.0
  /** Spacing the layout engine keeps between words. */
  const Padding: int := 8
  /** Entrance animation: the i-th placed word starts fading in after i * 50 ms. */
  const DelayStepMs: int := 50
  /** The rotations (in degrees) the layout may give a word. */
  const Rotations: seq<int> := [0, 90, -90, 45, -45]

  const LightPalette: seq<string> := [
    "#3B82F6", "#8B5CF6", "#10B981", "#F59E0B", "#EF4444",
    "#06B6D4", "#8B5CF6", "#EC4899", "#6366F1", "#84CC16"
  ]
  const DarkPalette: seq<string> := [
    "#60A5FA", "#A78BFA", "#34D399", "#FBBF24", "#F87171",
    "#22D3EE", "#C084FC", "#F472B6", "#818CF8", "#A3E635"
  ]

  function Palette(theme: Theme): (colors: seq<string>)
    ensures |colors| == 10
  {
    match theme
    case Light => LightPalette
    case Dark => DarkPalette
  }

  // ---------------------------------------------------------------------------
  // Frequency table

  /** One step of the counting loop: `wordFreq[word] = (wordFreq[word] || 0) + 1`. */
  function Bump(freq: map<string, int>, word: string): (r: map<string, int>)
    ensures word in r && r[word] == (if word in freq then freq[word] + 1 else 1)
  {
    freq[word := (if word in freq then freq[word] else 0) + 1]
  }

  /**
   * The table the counting loop has built after visiting all of `words` from
   * left to right. Its keys are exactly the submitted strings (no case or
   * whitespace folding), each mapped to its number of occurrences.
   */
  function Frequencies(words: seq<string>): (freq: map<string, int>)
    ensures forall w :: w in freq <==> w in words
    ensures forall w :: w in freq ==> freq[w] == multiset(words)[w] >= 1
    decreases |words|
  {
    if words == [] then map[]
    else
      var init, last := words[..|words| - 1], words[|words| - 1];
      assert words == init + [last];
      assert multiset(words) == multiset(init) + multiset{last};
      Bump(Frequencies(init), last)
  }

  ghost function PickKey(m: map<string, int>): (k: string)
    requires m != map[]
    ensures k in m
  {
    var k :| k in m; k
  }

  /** The sum of all counts in a table. */
  ghost function Total(m: map<string, int>): int
    decreases |m|
  {
    if m == map[] then 0 else m[PickKey(m)] + Total(m - {PickKey(m)})
  }

  /** The sum does not depend on which key is taken out first. */
  lemma {:induction false} TotalRemove(m: map<string, int>, k: string)
    requires k in m
    ensures Total(m) == m[k] + Total(m - {k})
    decreases |m|
  {
    var j := PickKey(m);
    if j != k {
      TotalRemove(m - {j}, k);
      TotalRemove(m - {k}, j);
      assert m - {j} - {k} == m - {k} - {j};
    }
  }

  lemma TotalBump(m: map<string, int>, w: string)
    ensures Total(Bump(m, w)) == Total(m) + 1
  {
    var b := Bump(m, w);
    TotalRemove(b, w);
    if w in m {
      TotalRemove(m, w);
      assert b - {w} == m - {w};
    } else {
      assert b - {w} == m;
    }
  }

  /** The counts add up to the number of submissions. */
  lemma {:induction false} FrequenciesTotal(words: seq<string>)
    ensures Total(Frequencies(words)) == |words|
    decreases |words|
  {
    if words != [] {
      FrequenciesTotal(words[..|words| - 1]);
      TotalBump(Frequencies(words[..|words| - 1]), words[|words| - 1]);
    }
  }

  /** The `forEach` loop that fills `wordFreq`. */
  method CountFrequencies(words: seq<string>) returns (freq: map<string, int>)
    ensures freq == Frequencies(words)
    ensures forall w :: w in freq <==> w in words
    ensures forall w :: w in freq ==> freq[w] == multiset(words)[w] >= 1
  {
    freq := map[];
    for i := 0 to |words|
      invariant freq == Frequencies(words[..i])
    {
      assert words[..i + 1][..i] == words[..i];
      freq := Bump(freq, words[i]);
    }
    assert words[..|words|] == words;
  }

  /** `keys` lists every key of `freq` exactly once, in some order. */
  ghost predicate IsEnumeration(keys: seq<string>, freq: map<string, int>) {
    && (forall i, j :: 0 <= i < j < |keys| ==> keys[i] != keys[j])
    && (forall k :: k in keys <==> k in freq)
  }

  /** `Object.keys(wordFreq)`: the runtime's enumeration of the table, whose order is left open. */
  method EnumerateKeys(freq: map<string, int>) returns (keys: seq<string>)
    ensures IsEnumeration(keys, freq)
  {
    keys := [];
    var rest := freq.Keys;
    while rest != {}
      invariant forall i, j :: 0 <= i < j < |keys| ==> keys[i] != keys[j]
      invariant forall k :: k in keys ==> k in freq && k !in rest
      invariant forall k :: k in freq ==> k in keys || k in rest
      invariant rest <= freq.Keys
      decreases rest
    {
      var k :| k in rest;
      keys := keys + [k];
      rest := rest - {k};
    }
  }

  function Max(a: int, b: int): int {
    if a >= b then a else b
  }

  /** `Math.max(...Object.values(wordFreq))`, the values taken in the order of `keys`. */
  function MaxCount(freq: map<string, int>, keys: seq<string>): (m: int)
    requires keys != [] && forall k :: k in keys ==> k in freq
    ensures exists i :: 0 <= i < |keys| && m == freq[keys[i]]
    ensures forall k :: k in keys ==> freq[k] <= m
  {
    if |keys| == 1 then freq[keys[0]]
    else
      var rest := MaxCount(freq, keys[1..]);
      assert forall k :: k in keys ==> k == keys[0] || k in keys[1..];
      Max(freq[keys[0]], rest)
  }

  /** `m` is the largest count of the table. */
  ghost predicate IsMaxCount(freq: map<string, int>, m: int) {
    (exists w :: w in freq && freq[w] == m) && forall w :: w in freq ==> freq[w] <= m
  }

  /** Whatever the enumeration order, `MaxCount` finds the largest count. */
  lemma MaxCountIsMax(freq: map<string, int>, keys: seq<string>)
    requires freq != map[] && IsEnumeration(keys, freq)
    ensures keys != [] && IsMaxCount(freq, MaxCount(freq, keys))
  {
    var w := PickKey(freq);
    assert w in keys;
    var m := MaxCount(freq, keys);
    var i :| 0 <= i < |keys| && m == freq[keys[i]];
    assert keys[i] in freq;
  }

  // ---------------------------------------------------------------------------
  // Sizing and styling

  /** `minSize + (f / maxFreq) * (maxSize - minSize)` */
  function FontSize(frequency: int, maxFreq: int): (size: real)
    requires 1 <= frequency <= maxFreq
    ensures MinSize < size <= MaxSize
    ensures size == MaxSize <==> frequency == maxFreq
  {
    var share := frequency as real / maxFreq as real;
    assert 0.0 < share <= 1.0;
    assert share == 1.0 <==> frequency == maxFreq by {
      assert share * maxFreq as real == frequency as real;
    }
    MinSize + share * (MaxSize - MinSize)
  }

  /** For a fixed maximum, a more frequent word is never drawn smaller, and a strictly more frequent one is drawn larger. */
  lemma FontSizeMonotone(f1: int, f2: int, maxFreq: int)
    requires 1 <= f1 <= f2 <= maxFreq
    ensures FontSize(f1, maxFreq) <= FontSize(f2, maxFreq)
    ensures f1 < f2 ==> FontSize(f1, maxFreq) < FontSize(f2, maxFreq)
  {
    var m := maxFreq as real;
    assert f1 as real / m <= f2 as real / m;
    assert f1 < f2 ==> f1 as real / m < f2 as real / m;
  }

  /** The input the layout engine receives for one word. */
  datatype SizedWord = SizedWord(text: string, size: real, frequency: int)

  /** `Object.keys(wordFreq).map(word => ({ text, size, frequency }))` */
  function SizeWords(freq: map<string, int>, keys: seq<string>, maxFreq: int): (sized: seq<SizedWord>)
    requires forall k :: k in keys ==> k in freq && 1 <= freq[k] <= maxFreq
    ensures |sized| == |keys|
    ensures forall i :: 0 <= i < |keys| ==>
      sized[i] == SizedWord(keys[i], FontSize(freq[keys[i]], maxFreq), freq[keys[i]])
  {
    seq(|keys|, i requires 0 <= i < |keys| => SizedWord(keys[i], FontSize(freq[keys[i]], maxFreq), freq[keys[i]]))
  }

  /** Every sized entry carries a count up to the maximum and the formula's size for it. */
  lemma SizedByFormula(freq: map<string, int>, keys: seq<string>, maxFreq: int)
    requires forall k :: k in keys ==> k in freq && 1 <= freq[k] <= maxFreq
    ensures forall s :: s in SizeWords(freq, keys, maxFreq) ==>
      1 <= s.frequency <= maxFreq && s.size == FontSize(s.frequency, maxFreq)
  {
    var sized := SizeWords(freq, keys, maxFreq);
    forall s | s in sized ensures 1 <= s.frequency <= maxFreq && s.size == FontSize(s.frequency, maxFreq) {
      var i :| 0 <= i < |sized| && sized[i] == s;
      assert keys[i] in keys;
    }
  }

  /** One sized entry per key, in the keys' order, each carrying that key's own count. */
  lemma SizedEntries(freq: map<string, int>, keys: seq<string>, maxFreq: int)
    requires IsEnumeration(keys, freq) && IsMaxCount(freq, maxFreq)
    requires forall k :: k in freq ==> freq[k] >= 1
    ensures forall i, j :: 0 <= i < j < |SizeWords(freq, keys, maxFreq)| ==>
      SizeWords(freq, keys, maxFreq)[i].text != SizeWords(freq, keys, maxFreq)[j].text
    ensures forall s :: s in SizeWords(freq, keys, maxFreq) ==> s.text in freq && s.frequency == freq[s.text]
  {
    var sized := SizeWords(freq, keys, maxFreq);
    forall s | s in sized ensures s.text in freq && s.frequency == freq[s.text] {
      var i :| 0 <= i < |sized| && sized[i] == s;
      assert keys[i] in keys;
    }
  }

  /** Every key of the table gets a sized entry. */
  lemma SizedCovers(freq: map<string, int>, keys: seq<string>, maxFreq: int)
    requires IsEnumeration(keys, freq) && IsMaxCount(freq, maxFreq)
    requires forall k :: k in freq ==> freq[k] >= 1
    ensures forall w :: w in freq ==> exists i :: 0 <= i < |SizeWords(freq, keys, maxFreq)| && SizeWords(freq, keys, maxFreq)[i].text == w
  {
    var sized := SizeWords(freq, keys, maxFreq);
    forall w | w in freq ensures exists i :: 0 <= i < |sized| && sized[i].text == w {
      assert w in keys;
      var i :| 0 <= i < |keys| && keys[i] == w;
      assert sized[i].text == w;
    }
  }

  /** An entry is at the maximum size exactly when no entry has a larger count. */
  lemma SizedMaxIff(freq: map<string, int>, keys: seq<string>, maxFreq: int)
    requires IsEnumeration(keys, freq) && IsMaxCount(freq, maxFreq)
    requires forall k :: k in freq ==> freq[k] >= 1
    ensures forall s :: s in SizeWords(freq, keys, maxFreq) ==>
      (s.size == MaxSize <==> forall t :: t in SizeWords(freq, keys, maxFreq) ==> t.frequency <= s.frequency)
  {
    var sized := SizeWords(freq, keys, maxFreq);
    SizedByFormula(freq, keys, maxFreq);
    var w :| w in freq && freq[w] == maxFreq;
    assert w in keys;
    var i :| 0 <= i < |keys| && keys[i] == w;
    assert sized[i] in sized && sized[i].frequency == maxFreq;
  }

  /** Sizes are ordered as counts are. */
  lemma SizedMonotone(freq: map<string, int>, keys: seq<string>, maxFreq: int)
    requires forall k :: k in keys ==> k in freq && 1 <= freq[k] <= maxFreq
    ensures forall s, t :: s in SizeWords(freq, keys, maxFreq) && t in SizeWords(freq, keys, maxFreq) && s.frequency <= t.frequency ==> s.size <= t.size
  {
    var sized := SizeWords(freq, keys, maxFreq);
    SizedByFormula(freq, keys, maxFreq);
    forall s, t | s in sized && t in sized && s.frequency <= t.frequency ensures s.size <= t.size {
      FontSizeMonotone(s.frequency, t.frequency, maxFreq);
    }
  }

  /**
   * What the sizing promises for a non-empty submission list: one entry per
   * distinct submission carrying its count, every size in (16, 72], the most
   * frequent words at exactly 72 and no others, and sizes ordered as counts are.
   */
  lemma SizedCloud(words: seq<string>, keys: seq<string>, maxFreq: int, sized: seq<SizedWord>)
    requires IsEnumeration(keys, Frequencies(words)) && IsMaxCount(Frequencies(words), maxFreq)
    requires sized == SizeWords(Frequencies(words), keys, maxFreq)
    ensures forall i, j :: 0 <= i < j < |sized| ==> sized[i].text != sized[j].text
    ensures forall s :: s in sized ==> s.text in words && s.frequency == multiset(words)[s.text]
    ensures forall w :: w in words ==> exists i :: 0 <= i < |sized| && sized[i].text == w
    ensures forall s :: s in sized ==> MinSize < s.size <= MaxSize
    ensures forall s :: s in sized ==> (s.size == MaxSize <==> forall t :: t in sized ==> t.frequency <= s.frequency)
    ensures forall s, t :: s in sized && t in sized && s.frequency <= t.frequency ==> s.size <= t.size
  {
    var freq := Frequencies(words);
    SizedEntries(freq, keys, maxFreq);
    SizedCovers(freq, keys, maxFreq);
    SizedByFormula(freq, keys, maxFreq);
    SizedMaxIff(freq, keys, maxFreq);
    SizedMonotone(freq, keys, maxFreq);
  }

  /** When every word occurs equally often, every word is drawn at the maximum size. */
  lemma UniformCountsGiveMaxSize(freq: map<string, int>, keys: seq<string>, c: int)
    requires freq != map[] && IsEnumeration(keys, freq)
    requires c >= 1 && forall w :: w in freq ==> freq[w] == c
    ensures forall s :: s in SizeWords(freq, keys, MaxCount(freq, keys)) ==> s.size == MaxSize
  {
    MaxCountIsMax(freq, keys);
  }

  /** `d.frequency > 1 ? "700" : "600"` */
  function FontWeight(frequency: int): (weight: string)
    ensures weight == "700" <==> frequency > 1
    ensures weight == "600" <==> frequency <= 1
  {
    if frequency > 1 then "700" else "600"
  }

  /** `colors[i % colors.length]` */
  function Fill(theme: Theme, i: nat): (color: string)
    ensures color in Palette(theme)
  {
    Palette(theme)[i % |Palette(theme)|]
  }

  /** Colours cycle with period 10 in both themes; the light palette uses "#8B5CF6" twice, at positions 1 and 6. */
  lemma {:induction false} FillCycles(theme: Theme, i: nat)
    ensures Fill(theme, i) == Palette(theme)[i % 10]
    ensures Fill(theme, i + 10) == Fill(theme, i)
    ensures theme == Light ==> Fill(theme, 1) == Fill(theme, 6) == "#8B5CF6"
  {
  }

  /** The dark palette has ten different colours, so ten consecutive placed words never share one there. */
  lemma DarkPaletteDistinct()
    ensures forall i, j :: 0 <= i < j < 10 ==> DarkPalette[i] != DarkPalette[j]
  {
  }

  /** `Math.floor(Math.random() * rotations.length)`, for a random draw `r` in [0, 1). */
  function RotationIndex(r: real): (i: int)
    requires 0.0 <= r < 1.0
    ensures 0 <= i < |Rotations|
  {
    (r * |Rotations| as real).Floor
  }

  /** The rotation the layout's `rotate` accessor returns for the random draw `r`. */
  function ChooseRotation(r: real): (degrees: int)
    requires 0.0 <= r < 1.0
    ensures degrees in Rotations
    ensures degrees == 0 || degrees == 90 || degrees == -90 || degrees == 45 || degrees == -45
  {
    Rotations[RotationIndex(r)]
  }

  /** Each of the five rotations is chosen on a fifth of [0, 1): index k exactly for r in [k/5, (k+1)/5). */
  lemma RotationIndexInterval(r: real, k: int)
    requires 0.0 <= r < 1.0 && 0 <= k < 5
    ensures RotationIndex(r) == k <==> k as real / 5.0 <= r < (k + 1) as real / 5.0
  {
  }

  /**
   * The rotations a layout may report are exactly the ones the `rotate`
   * accessor can choose, which is why a placed word's rotation is only
   * required to be in `Rotations`.
   */
  lemma RotationsAreTheChoices(degrees: int)
    ensures degrees in Rotations <==> exists r :: 0.0 <= r < 1.0 && ChooseRotation(r) == degrees
  {
    if degrees in Rotations {
      var k :| 0 <= k < |Rotations| && Rotations[k] == degrees;
      var r := k as real / 5.0;
      RotationIndexInterval(r, k);
      assert ChooseRotation(r) == degrees;
    }
  }

  // ---------------------------------------------------------------------------
  // Layout requests and the drawn scene

  /** One layout started by the renderer: the sized words, the canvas and the captured theme. */
  datatype LayoutRequest = LayoutRequest(words: seq<SizedWord>, width: real, height: real, padding: int, theme: Theme)

  /** A word as the layout engine reports it: the sized word plus its offset from the centre and its rotation. */
  datatype PlacedWord = PlacedWord(text: string, size: real, frequency: int, x: real, y: real, rotate: int)

  /**
   * The size the engine places and reports for a requested size: `d3-cloud`
   * stores `~~fontSize(d)`, which for the positive sizes of a cloud is the
   * integer part.
   */
  function EngineSize(requested: real): (placed: int)
    requires requested > 0.0
    ensures placed as real <= requested < placed as real + 1.0
  {
    requested.Floor
  }

  /** The engine reports the requested word `s` as `p`: same text and count, the size cut to an integer. */
  predicate Reports(p: PlacedWord, s: SizedWord) {
    s.text == p.text && s.frequency == p.frequency && s.size > 0.0 && p.size == EngineSize(s.size) as real
  }

  /**
   * What the engine may report for a request: some of the requested words,
   * each at most once with its text and count, its size cut to an integer,
   * and rotated by one of the five angles.
   */
  ghost predicate IsLayoutOf(placed: seq<PlacedWord>, request: LayoutRequest) {
    && (forall p :: p in placed ==> p.rotate in Rotations)
    && (forall p :: p in placed ==> exists s :: s in request.words && Reports(p, s))
    && (forall i, j :: 0 <= i < j < |placed| ==> placed[i].text != placed[j].text)
  }

  /** One `text` element of the drawn group. */
  datatype Glyph = Glyph(text: string, fill: string, fontSize: real, fontWeight: string,
                         x: real, y: real, rotate: int, delayMs: int)

  /** The text elements `draw` appends for the placed words, in the order of the placed list. */
  function Compose(placed: seq<PlacedWord>, theme: Theme): (scene: seq<Glyph>)
    ensures |scene| == |placed|
    ensures forall i :: 0 <= i < |placed| ==>
      && scene[i].text == placed[i].text && scene[i].fontSize == placed[i].size
      && scene[i].x == placed[i].x && scene[i].y == placed[i].y && scene[i].rotate == placed[i].rotate
      && scene[i].fill == Palette(theme)[i % 10]
      && scene[i].fontWeight == FontWeight(placed[i].frequency)
      && scene[i].delayMs == i * DelayStepMs
    ensures forall i, j :: 0 <= i < j < |scene| ==> scene[i].delayMs < scene[j].delayMs
  {
    seq(|placed|, i requires 0 <= i < |placed| =>
      var p := placed[i];
      Glyph(p.text, Fill(theme, i), p.size, FontWeight(p.frequency), p.x, p.y, p.rotate, i * DelayStepMs))
  }

  /**
   * Glyphs drawn from a layout of a sized cloud have whole-pixel sizes in
   * [16, 72] (a requested size just above 16 is drawn at 16) and the allowed
   * rotations.
   */
  lemma ComposedGlyphsBounded(placed: seq<PlacedWord>, request: LayoutRequest)
    requires IsLayoutOf(placed, request)
    requires forall s :: s in request.words ==> MinSize < s.size <= MaxSize
    ensures forall g :: g in Compose(placed, request.theme) ==>
      MinSize <= g.fontSize <= MaxSize && g.fontSize == g.fontSize.Floor as real && g.rotate in Rotations
  {
    var scene := Compose(placed, request.theme);
    forall g | g in scene ensures MinSize <= g.fontSize <= MaxSize && g.fontSize == g.fontSize.Floor as real && g.rotate in Rotations {
      var i :| 0 <= i < |scene| && scene[i] == g;
      assert placed[i] in placed;
      var s :| s in request.words && Reports(placed[i], s);
      EngineSizeBounded(s.size);
    }
  }

  /** A size in (16, 72] is cut to a whole size in [16, 72]. */
  lemma EngineSizeBounded(requested: real)
    requires MinSize < requested <= MaxSize
    ensures MinSize <= EngineSize(requested) as real <= MaxSize
    ensures (EngineSize(requested) as real).Floor == EngineSize(requested)
  {
  }

  /**
   * Cutting sizes to integers keeps them ordered as counts are, though no
   * longer strictly: a word with no smaller count than another is drawn no smaller.
   */
  lemma DrawnSizesOrdered(placed: seq<PlacedWord>, request: LayoutRequest, i: int, j: int)
    requires IsLayoutOf(placed, request)
    requires forall s, t :: s in request.words && t in request.words && s.frequency <= t.frequency ==> s.size <= t.size
    requires 0 <= i < |placed| && 0 <= j < |placed| && placed[i].frequency <= placed[j].frequency
    ensures Compose(placed, request.theme)[i].fontSize <= Compose(placed, request.theme)[j].fontSize
  {
    assert placed[i] in placed && placed[j] in placed;
    var s :| s in request.words && Reports(placed[i], s);
    var t :| t in request.words && Reports(placed[j], t);
    EngineSizeMonotone(s.size, t.size);
  }

  /** Cutting to an integer keeps the order of sizes. */
  lemma EngineSizeMonotone(a: real, b: real)
    requires 0.0 < a <= b
    ensures EngineSize(a) <= EngineSize(b)
  {
    assert (EngineSize(a) as real) < EngineSize(b) as real + 1.0;
  }

  /** Placing just one requested word, unrotated at the centre, is a layout the engine may report. */
  lemma PlacingOneWord(request: LayoutRequest, s: SizedWord)
    requires s in request.words && s.size > 0.0
    ensures IsLayoutOf([PlacedWord(s.text, EngineSize(s.size) as real, s.frequency, 0.0, 0.0, 0)], request)
  {
    assert Reports(PlacedWord(s.text, EngineSize(s.size) as real, s.frequency, 0.0, 0.0, 0), s);
  }

  /**
   * `request` is a layout the drawing effect may start for these props: the
   * captured canvas and theme, and one sized entry per distinct word with its
   * count and the size the formula gives it against the largest count; hence
   * sizes in (16, 72], exactly the most frequent words at 72, and sizes ordered
   * as counts are.
   */
  ghost predicate IsRequestFor(request: LayoutRequest, words: seq<string>, width: real, height: real, theme: Theme) {
    && request.width == width && request.height == height && request.padding == Padding && request.theme == theme
    && IsSizingOf(request.words, words)
    && SizedAgainstLargestCount(request.words, words)
  }

  /** One entry per distinct word with its count; sizes in (16, 72], 72 exactly for the most frequent, ordered as counts. */
  ghost predicate IsSizingOf(sized: seq<SizedWord>, words: seq<string>) {
    && (forall i, j :: 0 <= i < j < |sized| ==> sized[i].text != sized[j].text)
    && (forall s :: s in sized ==> s.text in words && s.frequency == multiset(words)[s.text])
    && (forall w :: w in words ==> exists i :: 0 <= i < |sized| && sized[i].text == w)
    && (forall s :: s in sized ==> MinSize < s.size <= MaxSize)
    && (forall s :: s in sized ==> (s.size == MaxSize <==> forall t :: t in sized ==> t.frequency <= s.frequency))
    && (forall s, t :: s in sized && t in sized && s.frequency <= t.frequency ==> s.size <= t.size)
  }

  /** Every entry's size is the formula's size for its count against the largest count of the table. */
  ghost predicate SizedAgainstLargestCount(sized: seq<SizedWord>, words: seq<string>) {
    exists m :: IsMaxCount(Frequencies(words), m) &&
      forall s :: s in sized ==> 1 <= s.frequency <= m && s.size == FontSize(s.frequency, m)
  }

  /** The request built from a sized enumeration of the table is a request for these words. */
  lemma SizedRequest(words: seq<string>, keys: seq<string>, maxFreq: int, request: LayoutRequest)
    requires IsEnumeration(keys, Frequencies(words)) && IsMaxCount(Frequencies(words), maxFreq)
    requires request.words == SizeWords(Frequencies(words), keys, maxFreq) && request.padding == Padding
    ensures IsRequestFor(request, words, request.width, request.height, request.theme)
  {
    SizedCloud(words, keys, maxFreq, request.words);
    assert IsSizingOf(request.words, words);
    SizedAgainstMax(words, keys, maxFreq);
  }

  /** The sizes are the formula's against the table's largest count. */
  lemma SizedAgainstMax(words: seq<string>, keys: seq<string>, maxFreq: int)
    requires IsEnumeration(keys, Frequencies(words)) && IsMaxCount(Frequencies(words), maxFreq)
    ensures SizedAgainstLargestCount(SizeWords(Frequencies(words), keys, maxFreq), words)
  {
    var freq := Frequencies(words);
    assert forall k :: k in keys ==> k in freq && 1 <= freq[k] <= maxFreq;
    SizedByFormula(freq, keys, maxFreq);
  }

  /**
   * The part of the drawing effect that prepares the layout: count the words,
   * enumerate the table, find the largest count, size every word and ask for
   * a layout of the given size and theme with padding 8.
   */
  method BuildRequest(words: seq<string>, width: real, height: real, theme: Theme) returns (request: LayoutRequest)
    requires |words| != 0
    ensures IsRequestFor(request, words, width, height, theme)
  {
    var freq := CountFrequencies(words);
    var keys := EnumerateKeys(freq);
    assert words[0] in freq;
    MaxCountIsMax(freq, keys);
    var maxFreq := MaxCount(freq, keys);
    var sized := SizeWords(freq, keys, maxFreq);
    request := LayoutRequest(sized, width, height, Padding, theme);
    SizedRequest(words, keys, maxFreq, request);
  }

  /** Whether the component shows the waiting message or the svg canvas. */
  datatype View = Waiting | Canvas

  /** The component renders the waiting message exactly when there are no words. */
  function ViewFor(words: seq<string>): (v: View)
    ensures v == Waiting <==> |words| == 0
  {
    if |words| == 0 then Waiting else Canvas
  }

  /**
   * The mounted component. Its props are the words, the question, the canvas
   * size and the theme; `groups` are the text groups drawn into the svg (the
   * gradient and background rectangle are omitted), and `pending` are the
   * layouts started and not yet completed.
   */
  class CloudView {
    var words: seq<string>
    var question: string
    var width: real
    var height: real
    var theme: Theme
    var svgMounted: bool
    var groups: seq<seq<Glyph>>
    var pending: seq<LayoutRequest>

    /** The svg exists only while there are words; without it nothing is drawn. */
    ghost predicate Valid()
      reads this
    {
      && svgMounted == (ViewFor(words) == Canvas)
      && (!svgMounted ==> groups == [])
    }

    constructor (question: string, width: real, height: real, theme: Theme)
      ensures Valid()
      ensures words == [] && this.question == question && this.width == width && this.height == height && this.theme == theme
      ensures !svgMounted && groups == [] && pending == []
    {
      this.words := [];
      this.question := question;
      this.width := width;
      this.height := height;
      this.theme := theme;
      svgMounted := false;
      groups := [];
      pending := [];
    }

    /**
     * The drawing effect, run when the words, size or theme changed: nothing at
     * all when there are no words; otherwise clear the svg and start a layout
     * of the counted and sized words.
     */
    method DrawEffect() returns (started: Option<LayoutRequest>)
      requires Valid()
      modifies this
      ensures Valid()
      ensures words == old(words) && question == old(question) && width == old(width)
      ensures height == old(height) && theme == old(theme) && svgMounted == old(svgMounted)
      ensures |words| == 0 ==> started == None && groups == old(groups) && pending == old(pending)
      ensures |words| != 0 ==> started.Some? && groups == [] && pending == old(pending) + [started.value]
      ensures started.Some? ==> IsRequestFor(started.value, words, width, height, theme)
    {
      if |words| == 0 {
        return None;
      }
      groups := [];
      var request := BuildRequest(words, width, height, theme);
      pending := pending + [request];
      started := Some(request);
    }

    /** The reset effect, run when the question changed: remove everything from the svg. */
    method QuestionEffect()
      requires Valid()
      modifies this`groups
      ensures Valid() && groups == []
    {
      groups := [];
    }

    /**
     * A re-render with new props, followed by the effects whose inputs
     * changed (the drawing effect first, as it is declared first). The svg is
     * mounted while there are words; a newly mounted svg is empty.
     */
    method Update(newWords: seq<string>, newQuestion: string, newWidth: real, newHeight: real, newTheme: Theme)
      returns (started: Option<LayoutRequest>)
      requires Valid()
      modifies this
      ensures Valid()
      ensures words == newWords && question == newQuestion && width == newWidth && height == newHeight && theme == newTheme
      ensures svgMounted == (|newWords| != 0)
      ensures started.Some? <==>
        |newWords| != 0 && (newWords != old(words) || newWidth != old(width) || newHeight != old(height) || newTheme != old(theme))
      ensures pending == old(pending) + (if started.Some? then [started.value] else [])
      ensures started.Some? ==> IsRequestFor(started.value, newWords, newWidth, newHeight, newTheme)
      ensures newQuestion != old(question) || started.Some? || |newWords| == 0 ==> groups == []
      ensures newQuestion == old(question) && started.None? && |newWords| != 0 && old(svgMounted) ==> groups == old(groups)
    {
      var depsChanged := newWords != words || newWidth != width || newHeight != height || newTheme != theme;
      var questionChanged := newQuestion != question;
      Render(newWords, newQuestion, newWidth, newHeight, newTheme);
      started := None;
      if depsChanged {
        started := DrawEffect();
      }
      if questionChanged {
        QuestionEffect();
      }
    }

    /**
     * The render itself, before any effect runs: the new props are taken, the
     * svg is mounted while there are words, and a newly mounted svg is empty.
     */
    method Render(newWords: seq<string>, newQuestion: string, newWidth: real, newHeight: real, newTheme: Theme)
      requires Valid()
      modifies this`words, this`question, this`width, this`height, this`theme, this`svgMounted, this`groups
      ensures Valid()
      ensures words == newWords && question == newQuestion && width == newWidth && height == newHeight && theme == newTheme
      ensures svgMounted == (|newWords| != 0)
      ensures |newWords| == 0 || !old(svgMounted) ==> groups == []
      ensures |newWords| != 0 && old(svgMounted) ==> groups == old(groups)
    {
      words, question, width, height, theme := newWords, newQuestion, newWidth, newHeight, newTheme;
      if |words| == 0 {
        svgMounted, groups := false, [];
      } else if !svgMounted {
        svgMounted, groups := true, [];
      }
    }

    /**
     * The layout engine finishing the `k`-th pending layout: `draw` appends
     * one group with a glyph per placed word to the svg that is mounted now,
     * with no check that the layout belongs to the current words or question.
     * Without a mounted svg nothing is drawn.
     */
    method LayoutEnd(k: nat, placed: seq<PlacedWord>)
      requires Valid() && k < |pending| && IsLayoutOf(placed, pending[k])
      modifies this`groups, this`pending
      ensures Valid()
      ensures pending == old(pending[..k] + pending[k + 1..])
      ensures groups == if svgMounted then old(groups) + [Compose(placed, old(pending[k]).theme)] else old(groups)
    {
      var request := pending[k];
      pending := pending[..k] + pending[k + 1..];
      if svgMounted {
        groups := groups + [Compose(placed, request.theme)];
      }
    }
  }

  /**
   * The scenario's first half: one word for question `q1` starts a layout,
   * question `q2` arrives and empties the cloud, one new word starts a second
   * layout, and neither layout has ended yet.
   */
  method TwoLayoutsPending(first: string, second: string, q1: string, q2: string)
    returns (view: CloudView, stale: LayoutRequest, current1: LayoutRequest)
    requires q1 != q2
    ensures fresh(view) && view.Valid() && view.svgMounted && view.groups == []
    ensures view.words == [second] && view.pending == [stale, current1]
    ensures |stale.words| >= 1 && stale.words[0].text == first && stale.words[0].size > 0.0
    ensures |current1.words| >= 1 && current1.words[0].text == second && current1.words[0].size > 0.0
  {
    view := new CloudView(q1, 500.0, 300.0, Light);
    var old1 := view.Update([first], q1, 500.0, 300.0, Light);
    stale := old1.value;
    assert first in [first];
    assert stale.words[0] in stale.words;
    var _ := view.Update([], q2, 500.0, 300.0, Light);
    var new1 := view.Update([second], q2, 500.0, 300.0, Light);
    current1 := new1.value;
    assert second in [second];
    assert current1.words[0] in current1.words;
  }

  /**
   * A layout started for the words of one question still draws when it ends
   * after the question changed and new words arrived: the renderer keeps no
   * generation or staleness check, so once the new words' layout ends too the
   * canvas holds the old word's group next to the new one's.
   */
  method StaleLayoutStillDraws(first: string, second: string, q1: string, q2: string)
    returns (drawn: seq<seq<Glyph>>, current: seq<string>)
    requires q1 != q2
    ensures current == [second]
    ensures |drawn| == 2 && |drawn[0]| == 1 && |drawn[1]| == 1
    ensures drawn[0][0].text == first && drawn[1][0].text == second
  {
    var view, stale, current1 := TwoLayoutsPending(first, second, q1, q2);
    var s, t := stale.words[0], current1.words[0];
    PlacingOneWord(stale, s);
    view.LayoutEnd(0, [PlacedWord(s.text, EngineSize(s.size) as real, s.frequency, 0.0, 0.0, 0)]);
    assert view.pending == [current1];
    PlacingOneWord(current1, t);
    view.LayoutEnd(0, [PlacedWord(t.text, EngineSize(t.size) as real, t.frequency, 0.0, 0.0, 0)]);
    drawn, current := view.groups, view.words;
  }
}
