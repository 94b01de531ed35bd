/** Shared vocabulary of the BrainQuest model: optional values, weekdays as
    JavaScript's `Date.getDay` numbers them, the seven puzzle categories, the
    three difficulties, and the few JavaScript number and string rules that the
    backend and the mobile client both rely on. */
module Base {

  datatype Option<T> = None | Some(value: T)

  /** A handler's answer: `{ success: true, ... }` carrying a value, or
      `{ success: false, ... }`. */
  datatype Reply<T> = Ok(value: T) | Fail

  /** `Date.prototype.getDay`: 0 is Sunday, 1 is Monday, ..., 6 is Saturday. */
  type WeekdayNumber = d: int | 0 <= d <= 6

  /** Local hour of the day, 0..23. */
  type Hour = h: int | 0 <= h <= 23

  /** Milliseconds in one day, `24 * 60 * 60 * 1000`. */
  const MsPerDay: int := 86_400_000

  /** `date.toLocaleDateString("en-US", { weekday: "short" })`. */
  function ShortWeekday(getDay: WeekdayNumber): (r: string)
    ensures |r| == 3
  {
    ["Sun", "Mon", "Tue", "Wed", "Thu", "Fri", "Sat"][getDay]
  }

  /** The bar-chart day labels in the order the stored week arrays use:
      Monday first, Sunday last. */
  const WeekLabels: seq<string> := ["Mon", "Tue", "Wed", "Thu", "Fri", "Sat", "Sun"]

  /** The position of a three-letter weekday label in `WeekLabels`, read
      from its first two letters. */
  function LabelPosition(s: string): int
    requires |s| == 3
  {
    if s[0] == 'M' then 0
    else if s[0] == 'T' && s[1] == 'u' then 1
    else if s[0] == 'W' then 2
    else if s[0] == 'T' then 3
    else if s[0] == 'F' then 4
    else if s[0] == 'S' && s[1] == 'a' then 5
    else 6
  }

  /** The seven labels are distinct: each is read back as its own position. */
  lemma WeekLabelsDistinct(a: int, b: int)
    requires 0 <= a < 7 && 0 <= b < 7 && WeekLabels[a] == WeekLabels[b]
    ensures a == b
  {
    forall k | 0 <= k < 7
      ensures |WeekLabels[k]| == 3 && LabelPosition(WeekLabels[k]) == k
    {
      if k == 0 {} else if k == 1 {} else if k == 2 {} else if k == 3 {} else if k == 4 {} else if k == 5 {} else {}
    }
  }

  /** `(7 - dayOfWeek) % 7`: the number of whole days until the coming Sunday. */
  function DaysUntilSunday(getDay: WeekdayNumber): (r: int)
    ensures 0 <= r <= 6
    ensures r == 0 <==> getDay == 0
    ensures (getDay + r) % 7 == 0
  {
    (7 - getDay) % 7
  }

  datatype Category = Logic | Math | Wordplay | Lateral | Patterns | Classic | Trivia

  datatype Difficulty = Easy | Medium | Hard

  /** `PointsReference`: the multiplier of a difficulty. */
  function PointsReference(d: Difficulty): int
  {
    match d
    case Easy => 1
    case Medium => 2
    case Hard => 3
  }

  /** A `{correct, incorrect}` pair. */
  datatype Tally = Tally(correct: int, incorrect: int)

  /** JavaScript's `%`, which truncates toward zero: the result takes the sign
      of the dividend. */
  function JsRem(a: int, b: int): (r: int)
    requires b > 0
    ensures a >= 0 ==> 0 <= r < b && r == a % b
    ensures a < 0 ==> -b < r <= 0
  {
    if a >= 0 then a % b else -((-a) % b)
  }

  /** The characters `String.prototype.trim` and `Number` strip: ECMAScript's
      WhiteSpace (tab, vertical tab, form feed, the byte-order mark and every
      space separator of Unicode 15) and LineTerminator code points. */
  predicate IsJsSpace(c: char)
  {
    c == '\t' || c == '\n' || c == '\U{B}' || c == '\U{C}' || c == '\r' || c == ' '
    || c == '\U{A0}' || c == '\U{1680}' || ('\U{2000}' <= c <= '\U{200A}')
    || c == '\U{2028}' || c == '\U{2029}' || c == '\U{202F}' || c == '\U{205F}'
    || c == '\U{3000}' || c == '\U{FEFF}'
  }

  /** `s.trim() === ""`. */
  predicate IsBlank(s: string)
  {
    forall i :: 0 <= i < |s| ==> IsJsSpace(s[i])
  }

  /** Removes every occurrence of `x`, as `list.filter(item => item !== x)`
      and Mongo's `$pull` do. */
  function RemoveAll(s: seq<string>, x: string): (r: seq<string>)
    ensures x !in r
    ensures forall y :: y != x ==> (y in r <==> y in s)
    ensures |r| <= |s|
  {
    if s == [] then []
    else if s[0] == x then RemoveAll(s[1..], x)
    else [s[0]] + RemoveAll(s[1..], x)
  }

  /** Mongo's `$addToSet` on an array of strings. */
  function AddToSet(s: seq<string>, x: string): (r: seq<string>)
    ensures x in r
    ensures forall y :: y in s ==> y in r
    ensures forall y :: y in r ==> y in s || y == x
    ensures x in s ==> r == s
  {
    if x in s then s else s + [x]
  }

  /** No value occurs twice. */
  predicate NoDuplicates(s: seq<string>)
  {
    forall i, j :: 0 <= i < j < |s| ==> s[i] != s[j]
  }
}
