/**
 * client/src/components/Avatar.jsx: a member's avatar is the upper-cased first letter of
 * the name on a background whose hue is a hash of the user id (or the name).
 *
 * The hash loop runs on JavaScript numbers: `hash << 5` first truncates `hash` to a signed
 * 32-bit integer and wraps the shifted result to 32 bits, while `- hash` and `+ charCode`
 * are plain additions. The model keeps that split exactly, with unbounded integers; the
 * lemma `HashExact` shows every value stays below 2^53, where doubles are exact, for seeds
 * of up to 2^21 characters.
 */
module Avatar {
  import opened Wrappers
  import Text

  const TwoTo31: int := 0x8000_0000
  const TwoTo32: int := 0x1_0000_0000

  /** ECMAScript ToInt32: the signed 32-bit integer congruent to `x` modulo 2^32. */
  function ToInt32(x: int): (r: int)
    ensures -TwoTo31 <= r < TwoTo31
    ensures (x - r) % TwoTo32 == 0
    ensures -TwoTo31 <= x < TwoTo31 ==> r == x
  {
    (x + TwoTo31) % TwoTo32 - TwoTo31
  }

  /** `charCodeAt`: the code of one character. */
  function CharCode(c: char): (r: nat)
    ensures r < 0x11_0000
  {
    c as int
  }

  /** One turn of the loop: `((hash << 5) - hash) + code`. */
  function Step(hash: int, c: char): (r: int)
    ensures -TwoTo31 <= hash * 32 < TwoTo31 ==> r == 31 * hash + CharCode(c)
    ensures -TwoTo31 - hash <= r - CharCode(c) < TwoTo31 - hash
  {
    ToInt32(ToInt32(hash) * 32) - hash + CharCode(c)
  }

  /** The hash of `seed`: the loop's value after every character, starting from 0. */
  function HashOf(seed: string): (r: int)
    decreases |seed|
  {
    if seed == [] then 0 else Step(HashOf(seed[..|seed| - 1]), seed[|seed| - 1])
  }

  /** The bound per character: the wrapped shift, plus the largest character code. */
  const StepBound: int := TwoTo31 + 0x11_0000

  /** Each character moves the hash by less than 2^31 plus its code, so the hash grows at most linearly. */
  lemma {:induction false} HashBound(seed: string)
    ensures -|seed| * StepBound <= HashOf(seed) <= |seed| * StepBound
  {
    if seed != [] {
      var prefix := seed[..|seed| - 1];
      HashBound(prefix);
      var h := HashOf(prefix);
      assert |prefix| * StepBound + StepBound == |seed| * StepBound;
      assert -TwoTo31 <= ToInt32(ToInt32(h) * 32) < TwoTo31;
    }
  }

  /** For seeds up to 2^21 characters every value of the loop is an integer a double holds exactly. */
  lemma HashExact(seed: string)
    requires |seed| <= 0x20_0000
    ensures -0x20_0000_0000_0000 < HashOf(seed) < 0x20_0000_0000_0000
  {
    HashBound(seed);
    assert |seed| * StepBound <= 0x20_0000 * StepBound;
  }

  /** The `for` loop over the seed's characters, one `Step` per character. */
  method Hash(seed: string) returns (hash: int)
    ensures hash == HashOf(seed)
  {
    hash := 0;
    for i := 0 to |seed|
      invariant hash == HashOf(seed[..i])
    {
      assert seed[..i + 1][..i] == seed[..i];
      hash := Step(hash, seed[i]);
    }
    assert seed[..|seed|] == seed;
  }

  /** `Math.abs(hash % 360)`, with JavaScript's `%` taking the sign of `hash`. */
  function Hue(hash: int): (r: int)
    ensures 0 <= r < 360
    ensures r == (if hash >= 0 then hash else -hash) % 360
  {
    var rem := if hash >= 0 then hash % 360 else -((-hash) % 360);
    if rem < 0 then -rem else rem
  }

  /** The hue is the same for `hash` and `-hash`, and 0 exactly for a multiple of 360. */
  lemma HueRange(hash: int)
    ensures Hue(hash) == Hue(-hash)
    ensures Hue(hash) == 0 <==> hash % 360 == 0
  {
    if hash < 0 {
      assert (-hash) % 360 == 0 <==> hash % 360 == 0;
    }
  }

  /** An empty seed leaves the hash at 0, so the hue is 0. */
  lemma EmptySeedHue()
    ensures HashOf("") == 0 && Hue(HashOf("")) == 0
  {
  }

  /** `String(n)` for a non-negative integer. */
  function Decimal(n: nat): (r: string)
    ensures r != [] && Text.AllDigits(r)
  {
    if n < 10 then [DigitChar(n)] else Decimal(n / 10) + [DigitChar(n % 10)]
  }

  function DigitChar(d: nat): (c: char)
    requires d < 10
    ensures Text.IsDigit(c) && c as int - '0' as int == d
  {
    ('0' as int + d) as char
  }

  /** The number a string of digits denotes. */
  function DigitsValue(s: string): (n: nat)
    requires Text.AllDigits(s)
  {
    if s == [] then 0 else 10 * DigitsValue(s[..|s| - 1]) + (s[|s| - 1] as int - '0' as int)
  }

  /** Reading the decimal text back gives the number. */
  lemma {:induction false} DecimalValue(n: nat)
    ensures DigitsValue(Decimal(n)) == n
  {
    if n >= 10 {
      DecimalValue(n / 10);
      var r := Decimal(n);
      assert r[..|r| - 1] == Decimal(n / 10);
    }
  }

  /** `hsl(${hue}, 52%, 42%)`. */
  function Background(hue: nat): (r: string)
  {
    "hsl(" + Decimal(hue) + ", 52%, 42%)"
  }

  /** `name || '?'`, then the first character upper-cased. */
  function Initial(name: Option<string>): (r: string)
    ensures |r| == 1
    ensures name.Some? && name.value != "" ==> r == [Text.UpperChar(name.value[0])]
    ensures name.None? || name.value == "" ==> r == "?"
  {
    var displayName := if name.Some? && name.value != "" then name.value else "?";
    [Text.UpperChar(displayName[0])]
  }

  /** The size class: "sm", "lg", or the medium default for anything else. */
  function SizeClass(size: string): (r: string)
    ensures size == "sm" <==> r == "w-8 h-8 text-xs"
    ensures size == "lg" <==> r == "w-12 h-12 text-lg"
    ensures size != "sm" && size != "lg" <==> r == "w-10 h-10 text-sm"
  {
    if size == "sm" then "w-8 h-8 text-xs" else if size == "lg" then "w-12 h-12 text-lg" else "w-10 h-10 text-sm"
  }

  /** `(userId || name || '')`: the first of the two that is a non-empty string. */
  function Seed(userId: Option<string>, name: Option<string>): (r: string)
    ensures userId.Some? && userId.value != "" ==> r == userId.value
    ensures (userId.None? || userId.value == "") && name.Some? && name.value != "" ==> r == name.value
    ensures (userId.None? || userId.value == "") && (name.None? || name.value == "") ==> r == ""
  {
    if userId.Some? && userId.value != "" then userId.value
    else if name.Some? && name.value != "" then name.value
    else ""
  }

  /** What the component draws: the letter, the size class and the background colour. */
  datatype View = View(initial: string, sizeClass: string, background: string)

  /** The component body: the seed's hash picks the hue. */
  method Render(userId: Option<string>, name: Option<string>, size: string) returns (view: View)
    ensures view == View(Initial(name), SizeClass(size), Background(Hue(HashOf(Seed(userId, name)))))
    ensures |view.initial| == 1
  {
    var seed := Seed(userId, name);
    var hash := Hash(seed);
    view := View(Initial(name), SizeClass(size), Background(Hue(hash)));
  }
}
