/** Schedules: five-field cron expressions and day intervals (`schedule.go`). */
module Cron {
  import opened Text
  import opened Int64
  import opened Arithmetic

  // ---- A UTC calendar, by counting days ----

  datatype Date = Date(year: int, month: int, day: int)

  predicate Leap(year: int) {
    year % 4 == 0 && (year % 100 != 0 || year % 400 == 0)
  }

  function MonthLength(year: int, month: int): int {
    if month in {4, 6, 9, 11} then 30 else if month != 2 then 31 else if Leap(year) then 29 else 28
  }

  predicate ValidDate(date: Date) {
    1 <= date.month <= 12 && 1 <= date.day <= MonthLength(date.year, date.month)
  }

  function NextDay(date: Date): Date {
    if date.day < MonthLength(date.year, date.month) then date.(day := date.day + 1)
    else if date.month < 12 then Date(date.year, date.month + 1, 1)
    else Date(date.year + 1, 1, 1)
  }

  /** The date of a day counted from 1970-01-01. */
  function DateOf(day: nat): (date: Date)
    ensures ValidDate(date)
  {
    if day == 0 then Date(1970, 1, 1) else NextDay(DateOf(day - 1))
  }

  /** Orders dates: a later date has a higher rank. */
  function Rank(date: Date): int {
    date.year * 372 + (date.month - 1) * 31 + date.day - 1
  }

  const DAY := 1440
  const MINUTE_NANOS := 60000000000

  /** Orders minutes by date and time of day. */
  function MinuteRank(minute: nat): int {
    Rank(DateOf(minute / DAY)) * DAY + minute % DAY
  }

  lemma {:induction false} RankGrows(a: nat, b: nat)
    requires a < b
    ensures Rank(DateOf(a)) < Rank(DateOf(b))
    decreases b
  {
    if a < b - 1 {
      RankGrows(a, b - 1);
    }
  }

  /** Ranks order minutes as time does. */
  lemma MinuteRankGrows(a: nat, b: nat)
    requires a < b
    ensures MinuteRank(a) < MinuteRank(b)
  {
    hide DateOf, Rank;
    if a / DAY < b / DAY {
      RankGrows(a / DAY, b / DAY);
    }
  }

  /** `AddDate(years, 0, 0)`: the 29th of February becomes the 1st of March where there is none. */
  function AddYears(date: Date, years: nat): Date {
    var year := date.year + years;
    if date.day > MonthLength(year, date.month) then Date(year, date.month + 1, 1) else date.(year := year)
  }

  // ---- Cron fields ----

  datatype Field = Field(values: set<int>, wildcard: bool)

  datatype Spec = Spec(minute: Field, hour: Field, dom: Field, month: Field, dow: Field)

  /** One item of a field's list. */
  datatype Range = Range(start: int, end: int, step: int)

  /** `strconv.Atoi`. */
  function ParseInt(text: string): Option<int> {
    var parsed := Atoi(text);
    if parsed.Some? && -INT64_LIMIT <= parsed.value < INT64_LIMIT then parsed else None
  }

  function ParseNumber(text: string, min: int, max: int): Option<int> {
    var parsed := ParseInt(text);
    if parsed.Some? && min <= parsed.value <= max then parsed else None
  }

  /** The step after the first slash: 1 when there is none. */
  function ParseStep(component: string): Option<int> {
    var slash := IndexOf(component, '/');
    if slash == |component| then Some(1)
    else
      var text := component[slash + 1..];
      if '/' in text || text == "" then None
      else
        var parsed := ParseInt(text);
        if parsed.Some? && parsed.value >= 1 then parsed else None
  }

  function ParseRange(component: string, min: int, max: int): Option<Range> {
    var slash := IndexOf(component, '/');
    var base := component[..slash];
    var dash := IndexOf(base, '-');
    match ParseStep(component)
    case None => None
    case Some(step) =>
      if base == "*" then Some(Range(min, max, step))
      else if dash < |base| then
        if '-' in base[dash + 1..] then None
        else
          match (ParseNumber(base[..dash], min, max), ParseNumber(base[dash + 1..], min, max))
          case (Some(start), Some(end)) => if start > end then None else Some(Range(start, end, step))
          case _ => None
      else if slash < |component| then None
      else
        match ParseNumber(base, min, max)
        case Some(value) => Some(Range(value, value, step))
        case None => None
  }

  /** Every `step`-th value from `start` to `end`. */
  predicate InRange(range: Range, value: int)
    requires range.step >= 1
  {
    range.start <= value <= range.end && (value - range.start) % range.step == 0
  }

  predicate Sane(range: Range) {
    0 <= range.start <= range.end <= 59 && 1 <= range.step < INT64_LIMIT
  }

  /** The values that wrapped additions reach below the start. */
  predicate WrapsTo(range: Range, value: int)
    requires Sane(range)
  {
    0 <= value < range.start && (range.start - value) % (2 * (INT64_LIMIT - range.step)) == 0
  }

  /** What the code's loop reaches. */
  predicate Reaches(range: Range, value: int)
    requires Sane(range)
  {
    InRange(range, value) || WrapsTo(range, value)
  }

  /** The loop reaches exactly the range's values unless twice the step's distance to the machine
      limit fits between a field's least value and the range's start: then the counter wraps into the field. */
  lemma WrapExactly(range: Range, min: int)
    requires Sane(range) && 0 <= min <= range.start
    ensures (forall v :: min <= v ==> (Reaches(range, v) <==> InRange(range, v)))
            <==> range.start - min < 2 * (INT64_LIMIT - range.step)
  {
    var distance := 2 * (INT64_LIMIT - range.step);
    var wrapped := range.start - distance;
    if min <= wrapped {
      SelfMultiple(distance);
      assert Reaches(range, wrapped) && !InRange(range, wrapped);
    } else {
      forall v | min <= v ensures !WrapsTo(range, v) {
        if WrapsTo(range, v) {
          MultiplesApart(0, range.start - v, distance);
        }
      }
    }
  }

  lemma SelfMultiple(m: int)
    requires m > 0
    ensures m % m == 0
  {
    MultipleOf(m, 1, m);
  }

  /** Sunday may be written 7. */
  function Aliased(value: int, sundayAlias: bool): int {
    if sundayAlias && value == 7 then 0 else value
  }

  predicate Items(input: string, min: int, max: int) {
    forall i :: 0 <= i < |Split(input, ',')| ==> ParseRange(Trim(Split(input, ',')[i]), min, max).Some?
  }

  /** One of the first `n` items of the list reaches the value, up to Sunday's two names. */
  ghost predicate SelectsBefore(input: string, n: nat, min: int, max: int, sundayAlias: bool, value: int)
    requires Bounds(min, max) && n <= |Split(input, ',')|
  {
    exists i, v :: 0 <= i < n && ItemReaches(input, min, max, i, v) && Aliased(v, sundayAlias) == value
  }

  ghost predicate Selects(input: string, min: int, max: int, sundayAlias: bool, value: int)
    requires Bounds(min, max)
  {
    SelectsBefore(input, |Split(input, ',')|, min, max, sundayAlias, value)
  }

  ghost predicate ItemReaches(input: string, min: int, max: int, i: int, v: int)
    requires Bounds(min, max) && 0 <= i < |Split(input, ',')|
  {
    var range := ParseRange(Trim(Split(input, ',')[i]), min, max);
    RangesAreSane(Trim(Split(input, ',')[i]), min, max);
    range.Some? && v >= 0 && Reaches(range.value, v)
  }

  predicate Bounds(min: int, max: int) {
    0 <= min <= max <= 59
  }

  lemma RangesAreSane(component: string, min: int, max: int)
    requires Bounds(min, max)
    ensures var range := ParseRange(component, min, max);
            range.Some? ==> Sane(range.value) && min <= range.value.start && range.value.end <= max
  {
  }

  // ---- The loop over a range, in machine arithmetic ----

  /** How far a step falls short of the machine limit: two additions that wrap lower a value by twice this. */
  function Shortfall(range: Range): (d: int)
    requires Sane(range)
    ensures d >= 1
  {
    INT64_LIMIT - range.step
  }

  /** The first addition already overflows. */
  predicate Wrapping(range: Range)
    requires Sane(range)
  {
    Shortfall(range) <= range.start
  }

  predicate Descends(range: Range, value: int)
    requires Sane(range)
  {
    0 <= value <= range.start && (range.start - value) % (2 * Shortfall(range)) == 0
  }

  /** The value before an addition that wrapped to `value`. */
  function BeforeWrap(range: Range, value: int): int
    requires Sane(range)
  {
    value + Shortfall(range) + INT64_LIMIT
  }

  predicate Deep(range: Range, value: int)
    requires Sane(range)
  {
    value < -1000 && BeforeWrap(range, value) >= Shortfall(range) && Descends(range, BeforeWrap(range, value))
  }

  /** Where the counter can be. */
  predicate OnCourse(range: Range, value: int)
    requires Sane(range)
  {
    if Wrapping(range) then
      Descends(range, value) || Deep(range, value) || -200 <= value < 0 || range.end < value < INT64_LIMIT
    else
      range.start <= value < INT64_LIMIT && (value - range.start) % range.step == 0
  }

  /** The loop is still to reach `v`. */
  predicate Ahead(range: Range, value: int, v: int)
    requires Sane(range)
  {
    if !Wrapping(range) then value <= v
    else if 0 <= value <= range.end then v <= value
    else value < -1000 && v <= value + range.step
  }

  function Remaining(range: Range, value: int): int
    requires Sane(range)
  {
    if value > range.end then 0
    else if !Wrapping(range) then range.end + 1 - value
    else if value >= 0 then 2 * value + 2
    else if value < -1000 then 2 * BeforeWrap(range, value) + 1
    else 1
  }

  /** Without an overflow the next value of the counter is the next of the range. */
  lemma SteppedPlainly(range: Range, value: int)
    requires Sane(range) && !Wrapping(range) && OnCourse(range, value) && value <= range.end
    ensures var next := WrapInt64(value + range.step);
            && next == value + range.step && OnCourse(range, next)
            && forall v :: InRange(range, v) && value < v ==> next <= v
  {
    hide WrapInt64, InRange;
    var next := value + range.step;
    StaysBelowLimit(range, value);
    WrapOnce(next);
    NextMultiple(range, value);
    forall v | InRange(range, v) && value < v ensures next <= v {
      InRangeMeans(range, v);
      MultiplesApart(value - range.start, v - range.start, range.step);
    }
  }

  lemma InRangeMeans(range: Range, v: int)
    requires range.step >= 1 && InRange(range, v)
    ensures range.start <= v <= range.end && (v - range.start) % range.step == 0
  {
  }

  lemma StaysBelowLimit(range: Range, value: int)
    requires Sane(range) && !Wrapping(range) && OnCourse(range, value) && value <= range.end
    ensures 0 <= value + range.step < INT64_LIMIT
  {
    if value > range.start {
      MultiplesApart(0, value - range.start, range.step);
    }
  }

  lemma NextMultiple(range: Range, value: int)
    requires Sane(range) && (value - range.start) % range.step == 0
    ensures (value + range.step - range.start) % range.step == 0
  {
    var k := (value - range.start) / range.step;
    MultipleOf(value + range.step - range.start, k + 1, range.step);
  }

  /** A counter that wraps goes down by twice the shortfall every other addition. */
  lemma SteppedWrapping(range: Range, value: int)
    requires Sane(range) && Wrapping(range) && OnCourse(range, value) && value <= range.end
    ensures var next := WrapInt64(value + range.step);
            && OnCourse(range, next)
            && Remaining(range, next) < Remaining(range, value)
            && forall v :: v >= 0 && Descends(range, v) && Ahead(range, value, v) && v != value ==>
                 Ahead(range, next, v)
  {
    hide Descends, Deep, BeforeWrap;
    if 0 <= value {
      DownFrom(range, value);
    } else if value < -1000 {
      UpFromDeep(range, value);
    } else {
      WrapOnce(value + range.step);
    }
  }

  lemma WrapOnce(n: int)
    requires -INT64_LIMIT <= n < 2 * INT64_LIMIT
    ensures WrapInt64(n) == if n < INT64_LIMIT then n else n - 2 * INT64_LIMIT
  {
  }

  /** From a value the counter leaves the field, at the top or by wrapping. */
  lemma DownFrom(range: Range, value: int)
    requires Sane(range) && Wrapping(range) && OnCourse(range, value) && 0 <= value <= range.end
    ensures var next := WrapInt64(value + range.step);
            && OnCourse(range, next) && Remaining(range, next) < Remaining(range, value)
            && forall v :: Descends(range, v) && v < value ==> Ahead(range, next, v)
  {
    hide WrapInt64;
    var d, next := Shortfall(range), WrapInt64(value + range.step);
    WrapOnce(value + range.step);
    assert Descends(range, value);
    forall v | Descends(range, v) && v < value ensures v <= value - 2 * d {
      MultiplesApart(range.start - value, range.start - v, 2 * d);
    }
    assert value >= d ==> BeforeWrap(range, next) == value;
  }

  /** From far below zero the counter comes back twice the shortfall lower. */
  lemma UpFromDeep(range: Range, value: int)
    requires Sane(range) && Wrapping(range) && OnCourse(range, value) && value < -1000
    ensures var next := WrapInt64(value + range.step);
            && next == BeforeWrap(range, value) - 2 * Shortfall(range)
            && OnCourse(range, next) && Remaining(range, next) < Remaining(range, value)
            && forall v :: v >= 0 && v <= value + range.step ==> Ahead(range, next, v)
  {
    hide WrapInt64;
    var d, next, before := Shortfall(range), WrapInt64(value + range.step), BeforeWrap(range, value);
    WrapOnce(value + range.step);
    assert Descends(range, before);
    if next >= 0 {
      var k := (range.start - before) / (2 * d);
      assert range.start - next == (k + 1) * (2 * d);
      MultipleOf(range.start - next, k + 1, 2 * d);
    }
  }

  /** What is reached below and in the range, by the way the counter takes. */
  lemma ReachedByCourse(range: Range, v: int)
    requires Sane(range) && v >= 0
    ensures Reaches(range, v) <==> if Wrapping(range) then Descends(range, v) else InRange(range, v)
  {
    hide InRange, WrapsTo, Descends;
    if Wrapping(range) {
      OnlyStartInRange(range, v);
      DescendsMeans(range, v);
    } else {
      NoWrap(range, v);
    }
  }

  lemma OnlyStartInRange(range: Range, v: int)
    requires Sane(range) && Wrapping(range)
    ensures InRange(range, v) <==> v == range.start
  {
    if InRange(range, v) && v > range.start {
      MultiplesApart(0, v - range.start, range.step);
    }
  }

  lemma DescendsMeans(range: Range, v: int)
    requires Sane(range)
    ensures Descends(range, v) <==> v == range.start || WrapsTo(range, v)
  {
  }

  lemma NoWrap(range: Range, v: int)
    requires Sane(range) && !Wrapping(range)
    ensures !WrapsTo(range, v)
  {
    if WrapsTo(range, v) {
      MultiplesApart(0, range.start - v, 2 * Shortfall(range));
    }
  }

  ghost predicate Yields(range: Range, sundayAlias: bool, value: int)
    requires Sane(range)
  {
    exists u :: u >= 0 && Reaches(range, u) && Aliased(u, sundayAlias) == value
  }

  /** Adds to `values` what the loop over a range reaches. Additions wrap as they do in the machine. */
  method AddRange(values: set<int>, range: Range, sundayAlias: bool) returns (out: set<int>)
    requires Sane(range)
    ensures forall v :: v >= 0 ==> (v in out <==> v in values || Yields(range, sundayAlias, v))
  {
    hide Reaches, InRange, WrapsTo, OnCourse, Ahead, Remaining, WrapInt64;
    out := values;
    ghost var visited: set<int> := {};
    var value := range.start;
    StartsOnCourse(range);
    while value <= range.end
      invariant OnCourse(range, value)
      invariant forall v :: v in visited && v >= 0 ==> Reaches(range, v)
      invariant forall v :: v >= 0 && Reaches(range, v) ==> v in visited || Ahead(range, value, v)
      invariant out == values + set u | u in visited :: Aliased(u, sundayAlias)
      decreases Remaining(range, value)
    {
      Step(range, value);
      visited := visited + {value};
      out := out + {if sundayAlias && value == 7 then 0 else value};
      value := WrapInt64(value + range.step);
    }
    PastTheEnd(range, value);
  }

  lemma StartsOnCourse(range: Range)
    requires Sane(range)
    ensures OnCourse(range, range.start)
    ensures forall v :: v >= 0 && Reaches(range, v) ==> Ahead(range, range.start, v)
  {
    forall v | v >= 0 && Reaches(range, v) ensures Ahead(range, range.start, v) {
      ReachedByCourse(range, v);
    }
  }

  lemma PastTheEnd(range: Range, value: int)
    requires Sane(range) && value > range.end
    ensures forall v :: v >= 0 && Reaches(range, v) ==> !Ahead(range, value, v)
  {
    forall v | v >= 0 && Reaches(range, v) ensures !Ahead(range, value, v) {
      ReachedByCourse(range, v);
    }
  }

  lemma Step(range: Range, value: int)
    requires Sane(range) && OnCourse(range, value) && value <= range.end
    ensures var next := WrapInt64(value + range.step);
            && OnCourse(range, next) && 0 <= Remaining(range, value) && Remaining(range, next) < Remaining(range, value)
            && (value >= 0 ==> Reaches(range, value))
            && forall v :: v >= 0 && Reaches(range, v) && Ahead(range, value, v) && v != value ==> Ahead(range, next, v)
  {
    if value >= 0 {
      ReachedByCourse(range, value);
    }
    forall v | v >= 0 ensures Reaches(range, v) <==> if Wrapping(range) then Descends(range, v) else InRange(range, v) {
      ReachedByCourse(range, v);
    }
    if Wrapping(range) {
      SteppedWrapping(range, value);
    } else {
      SteppedPlainly(range, value);
    }
  }

  // ---- Parsing a field and an expression ----

  predicate FieldParses(input: string, min: int, max: int) {
    Trim(input) != "" && Items(Trim(input), min, max)
  }

  /** The field selects what its text says. */
  ghost predicate Denotes(field: Field, input: string, min: int, max: int, sundayAlias: bool)
    requires Bounds(min, max)
  {
    && field.wildcard == (Trim(input) == "*")
    && forall v :: v >= 0 ==> (v in field.values <==> Selects(Trim(input), min, max, sundayAlias, v))
  }

  lemma ItemAdded(input: string, n: nat, min: int, max: int, sundayAlias: bool, range: Range, value: int)
    requires Bounds(min, max) && n < |Split(input, ',')|
    requires ParseRange(Trim(Split(input, ',')[n]), min, max) == Some(range) && Sane(range)
    ensures SelectsBefore(input, n + 1, min, max, sundayAlias, value) <==>
              || SelectsBefore(input, n, min, max, sundayAlias, value)
              || Yields(range, sundayAlias, value)
  {
    hide ParseRange, Reaches, Split, Trim;
    if SelectsBefore(input, n, min, max, sundayAlias, value) {
      var i, v :| 0 <= i < n && ItemReaches(input, min, max, i, v) && Aliased(v, sundayAlias) == value;
      assert 0 <= i < n + 1;
    }
    if u :| u >= 0 && Reaches(range, u) && Aliased(u, sundayAlias) == value {
      assert ItemReaches(input, min, max, n, u);
    }
    if i, v :| 0 <= i < n + 1 && ItemReaches(input, min, max, i, v) && Aliased(v, sundayAlias) == value {
      if i == n {
        assert Reaches(range, v);
      }
    }
  }

  method ParseCronField(input: string, min: int, max: int, sundayAlias: bool) returns (field: Option<Field>)
    requires Bounds(min, max)
    ensures field.Some? <==> FieldParses(input, min, max)
    ensures field.Some? ==> Denotes(field.value, input, min, max, sundayAlias)
  {
    hide ParseRange, Reaches, Split, Trim, ItemReaches, SelectsBefore, Yields;
    var trimmed := Trim(input);
    if trimmed == "" {
      return None;
    }
    var items := Split(trimmed, ',');
    var values: set<int> := {};
    NothingBefore(trimmed, min, max, sundayAlias);
    for i := 0 to |items|
      invariant forall k :: 0 <= k < i ==> ParseRange(Trim(items[k]), min, max).Some?
      invariant forall v :: v >= 0 ==> (v in values <==> SelectsBefore(trimmed, i, min, max, sundayAlias, v))
    {
      var range := ParseRange(Trim(items[i]), min, max);
      if range.None? {
        return None;
      }
      RangesAreSane(Trim(items[i]), min, max);
      forall v ensures SelectsBefore(trimmed, i + 1, min, max, sundayAlias, v) <==>
                         || SelectsBefore(trimmed, i, min, max, sundayAlias, v)
                         || Yields(range.value, sundayAlias, v)
      {
        ItemAdded(trimmed, i, min, max, sundayAlias, range.value, v);
      }
      values := AddRange(values, range.value, sundayAlias);
    }
    return Some(Field(values, trimmed == "*"));
  }

  lemma NothingBefore(input: string, min: int, max: int, sundayAlias: bool)
    requires Bounds(min, max)
    ensures forall v :: !SelectsBefore(input, 0, min, max, sundayAlias, v)
  {
  }

  /** `strings.Fields`: the maximal runs without white space. */
  function Fields(s: string): seq<string>
    decreases |s|
  {
    if s == "" then []
    else if IsSpace(s[0]) then Fields(s[1..])
    else [s[..WordEnd(s)]] + Fields(s[WordEnd(s)..])
  }

  function WordEnd(s: string): (n: nat)
    requires s != "" && !IsSpace(s[0])
    ensures 1 <= n <= |s| && forall i :: 0 <= i < n ==> !IsSpace(s[i])
    ensures n < |s| ==> IsSpace(s[n])
  {
    if |s| == 1 || IsSpace(s[1]) then 1 else 1 + WordEnd(s[1..])
  }

  predicate CronParses(expression: string) {
    var parts := Fields(expression);
    && |parts| == 5
    && FieldParses(parts[0], 0, 59) && FieldParses(parts[1], 0, 23) && FieldParses(parts[2], 1, 31)
    && FieldParses(parts[3], 1, 12) && FieldParses(parts[4], 0, 7)
  }

  ghost predicate SpecDenotes(spec: Spec, parts: seq<string>) {
    && |parts| == 5
    && Denotes(spec.minute, parts[0], 0, 59, false)
    && Denotes(spec.hour, parts[1], 0, 23, false)
    && Denotes(spec.dom, parts[2], 1, 31, false)
    && Denotes(spec.month, parts[3], 1, 12, false)
    && Denotes(spec.dow, parts[4], 0, 7, true)
  }

  method ParseCron(expression: string) returns (spec: Option<Spec>)
    ensures spec.Some? <==> CronParses(expression)
    ensures spec.Some? ==> SpecDenotes(spec.value, Fields(expression))
  {
    hide FieldParses, Denotes, Fields;
    var parts := Fields(expression);
    if |parts| != 5 {
      return None;
    }
    var minute := ParseCronField(parts[0], 0, 59, false);
    if minute.None? { return None; }
    var hour := ParseCronField(parts[1], 0, 23, false);
    if hour.None? { return None; }
    var dom := ParseCronField(parts[2], 1, 31, false);
    if dom.None? { return None; }
    var month := ParseCronField(parts[3], 1, 12, false);
    if month.None? { return None; }
    var dow := ParseCronField(parts[4], 0, 7, true);
    if dow.None? { return None; }
    return Some(Spec(minute.value, hour.value, dom.value, month.value, dow.value));
  }

  // ---- Matching ----

  function Weekday(day: nat): int {
    (day + 4) % 7
  }

  predicate Matches(spec: Spec, minute: nat) {
    var date := DateOf(minute / DAY);
    var domMatch := date.day in spec.dom.values;
    var dowMatch := Weekday(minute / DAY) in spec.dow.values;
    && minute % 60 in spec.minute.values && minute / 60 % 24 in spec.hour.values && date.month in spec.month.values
    && if spec.dom.wildcard && spec.dow.wildcard then true
       else if spec.dom.wildcard then dowMatch
       else if spec.dow.wildcard then domMatch
       else domMatch || dowMatch
  }

  /** What the five texts of an expression say of a minute: the month always restricts; a restricted
      day of the month and a restricted day of the week are alternatives. */
  ghost predicate Fires(parts: seq<string>, minute: nat)
    requires |parts| == 5
  {
    var date := DateOf(minute / DAY);
    var anyDay, anyWeekday := Trim(parts[2]) == "*", Trim(parts[4]) == "*";
    var day := Selects(Trim(parts[2]), 1, 31, false, date.day);
    var weekday := Selects(Trim(parts[4]), 0, 7, true, Weekday(minute / DAY));
    && Selects(Trim(parts[0]), 0, 59, false, minute % 60)
    && Selects(Trim(parts[1]), 0, 23, false, minute / 60 % 24)
    && Selects(Trim(parts[3]), 1, 12, false, date.month)
    && ((anyDay && anyWeekday) || (!anyDay && day) || (!anyWeekday && weekday))
  }

  lemma MatchesMeansFires(spec: Spec, parts: seq<string>, minute: nat)
    requires SpecDenotes(spec, parts)
    ensures Matches(spec, minute) <==> Fires(parts, minute)
  {
    hide Selects, DateOf, Trim;
  }

  /** No item of the list has a step so long that its loop wraps back into the field. */
  predicate Tame(input: string, min: int, max: int) {
    forall i :: 0 <= i < |Split(input, ',')| ==>
                  var range := ParseRange(Trim(Split(input, ',')[i]), min, max);
                  range.Some? ==> range.value.start - min < 2 * (INT64_LIMIT - range.value.step)
  }

  ghost predicate ItemNames(input: string, min: int, max: int, i: int, v: int)
    requires Bounds(min, max) && 0 <= i < |Split(input, ',')|
  {
    var range := ParseRange(Trim(Split(input, ',')[i]), min, max);
    RangesAreSane(Trim(Split(input, ',')[i]), min, max);
    range.Some? && v >= 0 && InRange(range.value, v)
  }

  /** Without such a step a field selects exactly the values its items name. */
  lemma TameSelects(input: string, min: int, max: int, sundayAlias: bool, value: int)
    requires Bounds(min, max) && Tame(input, min, max) && min <= value && (sundayAlias ==> min == 0)
    ensures Selects(input, min, max, sundayAlias, value) <==>
            exists i, v :: 0 <= i < |Split(input, ',')|
                           && ItemNames(input, min, max, i, v) && Aliased(v, sundayAlias) == value
  {
    hide ParseRange, Split, Trim, InRange, Reaches;
    forall i, v | 0 <= i < |Split(input, ',')| && min <= v
      ensures ItemReaches(input, min, max, i, v) <==> ItemNames(input, min, max, i, v)
    {
      var range := ParseRange(Trim(Split(input, ',')[i]), min, max);
      if range.Some? {
        RangesAreSane(Trim(Split(input, ',')[i]), min, max);
        WrapExactly(range.value, min);
      }
    }
    assert forall v :: Aliased(v, sundayAlias) == value && v >= 0 ==> min <= v;
  }

  // ---- The next run ----

  /** Not after the same minute and date five years on. */
  predicate WithinFiveYears(minute: nat, first: nat) {
    MinuteRank(minute) <= Rank(AddYears(DateOf(first / DAY), 5)) * DAY + first % DAY
  }

  predicate After(minute: nat, nanos: nat) {
    minute * MINUTE_NANOS > nanos
  }

  /** The earliest whole minute strictly after the given time that matches; there is one if and only
      if some minute matches within five years. */
  method Next(spec: Spec, after: nat) returns (next: Option<nat>)
    ensures next.Some? ==>
              && After(next.value, after) && Matches(spec, next.value)
              && WithinFiveYears(next.value, after / MINUTE_NANOS + 1)
    ensures next.Some? ==> forall m :: After(m, after) && Matches(spec, m) ==> next.value <= m
    ensures next.None? <==>
              forall m :: After(m, after) && Matches(spec, m) ==> !WithinFiveYears(m, after / MINUTE_NANOS + 1)
  {
    hide Matches, MinuteRank, AddYears, DateOf, Rank;
    var candidate := after / MINUTE_NANOS + 1;
    var limit := Rank(AddYears(DateOf(candidate / DAY), 5)) * DAY + candidate % DAY;
    while MinuteRank(candidate) <= limit
      invariant candidate > after / MINUTE_NANOS
      invariant forall m :: after / MINUTE_NANOS < m < candidate ==> !Matches(spec, m)
      decreases limit - MinuteRank(candidate)
    {
      if Matches(spec, candidate) {
        return Some(candidate);
      }
      MinuteRankGrows(candidate, candidate + 1);
      candidate := candidate + 1;
    }
    forall m | m >= candidate ensures MinuteRank(m) > limit {
      if m > candidate {
        MinuteRankGrows(candidate, m);
      }
    }
    return None;
  }

  datatype Schedule = Interval(everyDays: int, at: string) | CronSchedule(expression: string) | OtherSchedule

  /** "HH:MM". */
  function ParseClock(text: string): Option<(int, int)> {
    var parts := Split(Trim(text), ':');
    if |parts| != 2 then None
    else
      match (ParseNumber(parts[0], 0, 23), ParseNumber(parts[1], 0, 59))
      case (Some(hour), Some(minute)) => Some((hour, minute))
      case _ => None
  }

  predicate ValidSchedule(schedule: Schedule) {
    match schedule
    case Interval(everyDays, at) => 1 <= everyDays <= 365 && ParseClock(at).Some?
    case CronSchedule(expression) => CronParses(expression)
    case OtherSchedule => false
  }

  /** The minute of an interval's first run: the time of day, `everyDays` after the base's day. */
  function FirstRun(everyDays: int, clock: (int, int), base: nat): int {
    (base / MINUTE_NANOS / DAY + everyDays) * DAY + clock.0 * 60 + clock.1
  }

  /** The least run of an interval that lies after now. */
  method NextInterval(everyDays: int, clock: (int, int), now: nat, lastRun: Option<nat>) returns (next: nat,
      ghost k: nat)
    requires everyDays >= 1 && 0 <= clock.0 <= 23 && 0 <= clock.1 <= 59
    ensures next == FirstRun(everyDays, clock, if lastRun.Some? then lastRun.value else now) + k * everyDays * DAY
    ensures After(next, now)
    ensures k > 0 ==> next >= everyDays * DAY && !After(next - everyDays * DAY, now)
  {
    var base := if lastRun.Some? then lastRun.value else now;
    next, k := FirstRun(everyDays, clock, base), 0;
    while next * MINUTE_NANOS <= now
      invariant next == FirstRun(everyDays, clock, base) + k * everyDays * DAY
      invariant k > 0 ==> next >= everyDays * DAY && !After(next - everyDays * DAY, now)
      decreases now - next * MINUTE_NANOS
    {
      Distribute(k, everyDays);
      next, k := next + everyDays * DAY, k + 1;
    }
  }

  lemma Distribute(k: nat, days: int)
    ensures (k + 1) * days * DAY == k * days * DAY + days * DAY
  {
  }

  /** `lastRun` is `None` where there was none. */
  method NextRun(schedule: Schedule, now: nat, lastRun: Option<nat>) returns (next: Option<nat>)
    ensures !ValidSchedule(schedule) ==> next.None?
    ensures next.Some? ==> After(next.value, now)
    ensures ValidSchedule(schedule) && schedule.Interval? ==>
              next.Some? && exists k: nat :: IntervalRun(schedule, now, lastRun, next.value, k)
    ensures ValidSchedule(schedule) && schedule.CronSchedule? ==>
              var parts := Fields(schedule.expression);
              && (next.Some? ==>
                    && Fires(parts, next.value) && WithinFiveYears(next.value, now / MINUTE_NANOS + 1)
                    && forall m :: After(m, now) && Fires(parts, m) ==> next.value <= m)
              && (next.None? <==>
                    forall m :: After(m, now) && Fires(parts, m) ==> !WithinFiveYears(m, now / MINUTE_NANOS + 1))
  {
    hide Fires, Matches, MinuteRank, CronParses, Fields, ParseClock, FirstRun, WithinFiveYears, SpecDenotes;
    match schedule {
      case OtherSchedule =>
        return None;
      case Interval(everyDays, at) =>
        var clock := ParseClock(at);
        if everyDays < 1 || everyDays > 365 || clock.None? {
          return None;
        }
        ClockInDay(at);
        ghost var k;
        var run;
        run, k := NextInterval(everyDays, clock.value, now, lastRun);
        assert IntervalRun(schedule, now, lastRun, run, k);
        return Some(run);
      case CronSchedule(expression) =>
        var spec := ParseCron(expression);
        if spec.None? {
          return None;
        }
        SpecHasFiveParts(spec.value, Fields(expression));
        forall m: nat ensures Matches(spec.value, m) <==> Fires(Fields(expression), m) {
          MatchesMeansFires(spec.value, Fields(expression), m);
        }
        next := Next(spec.value, now);
    }
  }

  lemma SpecHasFiveParts(spec: Spec, parts: seq<string>)
    requires SpecDenotes(spec, parts)
    ensures |parts| == 5
  {
  }

  lemma ClockInDay(text: string)
    ensures var clock := ParseClock(text); clock.Some? ==> 0 <= clock.value.0 <= 23 && 0 <= clock.value.1 <= 59
  {
  }

  /** The k-th run after the first, the least one after now. */
  ghost predicate IntervalRun(schedule: Schedule, now: nat, lastRun: Option<nat>, run: nat, k: nat)
    requires schedule.Interval? && ValidSchedule(schedule)
  {
    var base := if lastRun.Some? then lastRun.value else now;
    var period := schedule.everyDays * DAY;
    && run == FirstRun(schedule.everyDays, ParseClock(schedule.at).value, base) + k * schedule.everyDays * DAY
    && After(run, now)
    && (k > 0 ==> run >= period && !After(run - period, now))
  }

  // ---- A field that selects more than it says ----

  const LONG_STEP := 9223372036854775806
  const WRAPPING_FIELD := "5-59/9223372036854775806"

  lemma NextDigit(s: string, t: string, c: char)
    requires AllDigits(s) && IsDigit(c) && t == s + [c]
    ensures AllDigits(t) && DigitsValue(t) == 10 * DigitsValue(s) + DigitValue(c)
  {
    assert t[..|s|] == s;
  }

  lemma FirstDigitsAreRead()
    ensures AllDigits("9223372036") && DigitsValue("9223372036") == 9223372036
  {
    assert "9"[..0] == "";
    assert DigitsValue("9") == 9;
    NextDigit("9", "92", '2');
    NextDigit("92", "922", '2');
    NextDigit("922", "9223", '3');
    NextDigit("9223", "92233", '3');
    NextDigit("92233", "922337", '7');
    NextDigit("922337", "9223372", '2');
    NextDigit("9223372", "92233720", '0');
    NextDigit("92233720", "922337203", '3');
    NextDigit("922337203", "9223372036", '6');
  }

  lemma LongStepIsRead()
    ensures ParseInt("9223372036854775806") == Some(LONG_STEP)
  {
    FirstDigitsAreRead();
    NextDigit("9223372036", "92233720368", '8');
    NextDigit("92233720368", "922337203685", '5');
    NextDigit("922337203685", "9223372036854", '4');
    NextDigit("9223372036854", "92233720368547", '7');
    NextDigit("92233720368547", "922337203685477", '7');
    NextDigit("922337203685477", "9223372036854775", '5');
    NextDigit("9223372036854775", "92233720368547758", '8');
    NextDigit("92233720368547758", "922337203685477580", '0');
    NextDigit("922337203685477580", "9223372036854775806", '6');
  }

  /** The field is accepted and selects minute 1, which its range does not name. */
  lemma WrapHappens()
    ensures FieldParses(WRAPPING_FIELD, 0, 59)
    ensures Split(Trim(WRAPPING_FIELD), ',') == [WRAPPING_FIELD]
    ensures ParseRange(Trim(WRAPPING_FIELD), 0, 59) == Some(Range(5, 59, LONG_STEP))
    ensures Selects(Trim(WRAPPING_FIELD), 0, 59, false, 1) && !ItemNames(Trim(WRAPPING_FIELD), 0, 59, 0, 1)
  {
    hide Split, IndexOf, Trim, ParseInt, LONG_STEP;
    TrimmedIsFixed(WRAPPING_FIELD);
    SplitWithout(WRAPPING_FIELD, ',');
    LongFieldParses();
    assert ItemReaches(WRAPPING_FIELD, 0, 59, 0, 1) by {
      LongStepReaches();
    }
  }

  lemma LongStepReaches()
    ensures var range := Range(5, 59, LONG_STEP); Sane(range) && Reaches(range, 1) && !InRange(range, 1)
  {
  }

  lemma LongFieldSplits()
    ensures IndexOf(WRAPPING_FIELD, '/') == 4 && WRAPPING_FIELD[..4] == "5-59"
    ensures IndexOf("5-59", '-') == 1 && "5-59"[..1] == "5" && "5-59"[2..] == "59"
    ensures ParseStep(WRAPPING_FIELD) == Some(LONG_STEP)
  {
    hide IndexOf, ParseInt;
    assert WRAPPING_FIELD == "5-59" + ['/'] + "9223372036854775806";
    IndexOfFirst("5-59", "9223372036854775806", '/');
    assert WRAPPING_FIELD[5..] == "9223372036854775806";
    IndexOfFirst("5", "59", '-');
    assert "5-59" == "5" + ['-'] + "59";
    LongStepIsRead();
    assert '/' !in "9223372036854775806";
  }

  lemma LongFieldParses()
    ensures ParseRange(WRAPPING_FIELD, 0, 59) == Some(Range(5, 59, LONG_STEP))
  {
    hide IndexOf, ParseInt, ParseStep, WRAPPING_FIELD, LONG_STEP;
    LongFieldSplits();
    ShortNumbersAreRead();
    assert '-' in "5-59" && '-' !in "59";
    assert "5-59" != "*";
  }

  lemma ShortNumbersAreRead()
    ensures ParseInt("5") == Some(5) && ParseInt("59") == Some(59)
  {
    assert "5"[..0] == "";
    assert DigitsValue("5") == 5;
    NextDigit("5", "59", '9');
  }
}
