/**
 * The dynamic JavaScript values that the request body, Firestore documents and
 * the admin filter state hold, with the three language rules the modelled code
 * depends on: truthiness, conversion to a string in a template literal, and
 * object spread (`{...v}`).
 */
module JsValues {
  import opened Strings

  /** A JSON-like value. Numbers are integral; `Time` is a `Date` holding milliseconds since the epoch. */
  datatype JsValue =
    | Undefined
    | Null
    | Bool(b: bool)
    | Num(n: int)
    | Str(s: string)
    | Arr(elems: seq<JsValue>)
    | Obj(fields: map<string, JsValue>)
    | Time(millis: int)

  /** `!!v`: only `undefined`, `null`, `false`, `0` and `''` are falsy. */
  predicate Truthy(v: JsValue) {
    match v
    case Undefined => false
    case Null => false
    case Bool(b) => b
    case Num(n) => n != 0
    case Str(s) => s != ""
    case _ => true
  }

  /** `v == null` (loose equality). */
  predicate IsNullish(v: JsValue) {
    v == Undefined || v == Null
  }

  /** `${v}` in a template literal. Array elements that are nullish render as empty strings, as `Array.prototype.join` does. */
  function ToString(v: JsValue): string {
    match v
    case Undefined => "undefined"
    case Null => "null"
    case Bool(b) => if b then "true" else "false"
    case Num(n) => IntToString(n)
    case Str(s) => s
    case Arr(es) => Join(seq(|es|, i requires 0 <= i < |es| => if IsNullish(es[i]) then "" else ToString(es[i])), ",")
    case Obj(_) => "[object Object]"
    case Time(ms) => DateString(ms)
  }

  // ---------------------------------------------------------------------------
  // Date.prototype.toString in UTC
  // ---------------------------------------------------------------------------

  const MsPerDay: int := 86400000

  /** The largest distance from the epoch, in milliseconds, that a `Date` can hold. */
  const MaxTimeValue: int := 8640000000000000

  /** `n` in decimal with leading zeros up to `width` digits. */
  function ZeroPadded(n: nat, width: nat): (r: string)
    ensures |r| >= width && forall i :: 0 <= i < |r| ==> IsDigit(r[i])
  {
    var digits := NatToString(n);
    if |digits| >= width then digits else seq(width - |digits|, _ => '0') + digits
  }

  /** As `ZeroPadded`, with a `-` before a negative number (how a year before 1 BC is written). */
  function Padded(n: int, width: nat): string {
    if n < 0 then "-" + ZeroPadded(-n, width) else ZeroPadded(n, width)
  }

  /**
   * The proleptic Gregorian (year, month, day) of a day counted from 1970-01-01,
   * in 400-year eras starting on 0000-03-01; `/` floors as the algorithm needs.
   */
  function CivilFromDays(days: int): (int, int, int) {
    var z := days + 719468;
    var era := z / 146097;
    var doe := z - era * 146097;
    var yoe := (doe - doe / 1460 + doe / 36524 - doe / 146096) / 365;
    var doy := doe - (365 * yoe + yoe / 4 - yoe / 100);
    var mp := (5 * doy + 2) / 153;
    var day := doy - (153 * mp + 2) / 5 + 1;
    var month := if mp < 10 then mp + 3 else mp - 9;
    (if month <= 2 then yoe + era * 400 + 1 else yoe + era * 400, month, day)
  }

  const WeekdayNames: seq<string> := ["Sun", "Mon", "Tue", "Wed", "Thu", "Fri", "Sat"]

  const MonthNames: seq<string> :=
    ["Jan", "Feb", "Mar", "Apr", "May", "Jun", "Jul", "Aug", "Sep", "Oct", "Nov", "Dec"]

  /** The date half of a rendered `Date`, such as `Thu Jan 01 1970`, for a day counted from the epoch. */
  function DayString(days: int): string {
    var (year, month, day) := CivilFromDays(days);
    // month is 1..12; `% 12` only keeps the index visibly in range
    WeekdayNames[(days + 4) % 7] + " " + MonthNames[(month - 1) % 12] + " " + Padded(day, 2) + " " + Padded(year, 4)
  }

  /** The time half of a rendered `Date`, `hh:mm:ss`, for a millisecond of the day. */
  function TimeOfDayString(inDay: int): string {
    Padded(inDay / 3600000, 2) + ":" + Padded(inDay / 60000 % 60, 2) + ":" + Padded(inDay / 1000 % 60, 2)
  }

  /**
   * `Date.prototype.toString()` of the time value `ms` with the process time zone
   * set to UTC: date, time of day, offset and zone name.
   */
  function DateString(ms: int): string {
    if ms < -MaxTimeValue || MaxTimeValue < ms then "Invalid Date"
    else DayString(ms / MsPerDay) + " " + TimeOfDayString(ms % MsPerDay) + " GMT+0000 (Coordinated" + " Universal Time)"
  }

  /** Day 0 of the count is 1 January 1970. */
  lemma CivilFromDaysEpoch()
    ensures CivilFromDays(0) == (1970, 1, 1)
  {
    assert 719468 / 146097 == 4;
    assert (135080 - 135080 / 1460 + 135080 / 36524 - 135080 / 146096) / 365 == 369;
    assert 135080 - (365 * 369 + 369 / 4 - 369 / 100) == 306;
    assert (5 * 306 + 2) / 153 == 10;
    assert 306 - (153 * 10 + 2) / 5 + 1 == 1;
  }

  /** The epoch, a Thursday, renders as `Thu Jan 01 1970 00:00:00 GMT+0000 (Coordinated Universal Time)`: its date half. */
  lemma DayStringEpoch()
    ensures DayString(0) == "Thu" + " " + "Jan" + " " + "01" + " " + "1970"
  {
    CivilFromDaysEpoch();
    assert NatToString(1970) == "1970" by {
      assert NatToString(1) == "1";
      assert NatToString(19) == NatToString(1) + "9";
      assert NatToString(197) == NatToString(19) + "7";
      assert NatToString(1970) == NatToString(197) + "0";
    }
    assert Padded(1970, 4) == "1970";
    assert Padded(1, 2) == "01";
  }

  /** ... and its time half. */
  lemma TimeOfDayStringMidnight()
    ensures TimeOfDayString(0) == "00" + ":" + "00" + ":" + "00"
  {
    assert Padded(0, 2) == "00";
    assert 0 / 3600000 == 0 && 0 / 60000 == 0 && 0 / 1000 == 0;
    assert 0 % 60 == 0;
  }

  /** A rendered `Date` starts with a capital letter (a weekday, or `Invalid Date`), never with a digit or a sign. */
  lemma DateStringStart(ms: int)
    ensures |DateString(ms)| > 0 && 'A' <= DateString(ms)[0] <= 'Z'
  {
    if -MaxTimeValue <= ms <= MaxTimeValue {
      var w := WeekdayNames[(ms / MsPerDay + 4) % 7];
      assert DayString(ms / MsPerDay)[0] == w[0];
    }
  }

  /** `v[i]` on an array, a string or an object (its own field named `i`), `undefined` when there is none. */
  function Index(v: JsValue, i: nat): JsValue {
    match v
    case Arr(es) => if i < |es| then es[i] else Undefined
    case Str(s) => if i < |s| then Str([s[i]]) else Undefined
    case Obj(fields) => if NatToString(i) in fields then fields[NatToString(i)] else Undefined
    case _ => Undefined
  }

  /** The own enumerable properties that `{...v}` copies: an object's fields, the indexed elements of an array or string, nothing otherwise. */
  function Spread(v: JsValue): (m: map<string, JsValue>)
    ensures v.Obj? ==> m == v.fields
    ensures !v.Obj? && !v.Arr? && !v.Str? ==> m == map[]
    ensures v.Arr? ==> forall i :: 0 <= i < |v.elems| ==> NatToString(i) in m && m[NatToString(i)] == v.elems[i]
  {
    NatToStringInjectiveAll();
    match v
    case Obj(fields) => fields
    case Arr(es) => map i | 0 <= i < |es| :: NatToString(i) := es[i]
    case Str(s) => map i | 0 <= i < |s| :: NatToString(i) := Str([s[i]])
    case _ => map[]
  }
}
