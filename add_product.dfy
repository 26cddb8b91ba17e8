/**
 * The data logic of the account form: the date formatter, the age-field digit filter,
 * adding and removing roles, the field validators, and the plan-label lookup.
 * Rendering and form-state plumbing are not modelled.
 */
module AddProduct {
  import opened Wrappers
  import opened Strings
  import opened Js

  // ---------------------------------------------------------------- dates

  /** The calendar fields of a picked date. */
  datatype DateValue = DateValue(year: nat, month: nat, day: nat)

  /** `String(n).padStart(2, "0")`. */
  function Pad2(n: nat): string {
    PadStart(Decimal(n), 2, '0')
  }

  /** A padded field is all digits; below 100 it is two digits worth `n`, from 100 on it
      is `n` written out. */
  lemma Pad2Value(n: nat)
    ensures AllDigits(Pad2(n))
    ensures n < 100 ==> |Pad2(n)| == 2 && DigitsValue(Pad2(n)) == n
    ensures n >= 100 ==> Pad2(n) == Decimal(n)
  {
    var d := Decimal(n);
    DecimalRoundTrip(n);
    if n < 10 {
      assert Pad2(n) == "0" + d;
      LeadingZero(d);
    } else if n < 100 {
      assert |Decimal(n / 10)| == 1;
    } else {
      assert |Decimal(n / 10)| >= 2;
    }
  }

  /** `dateValueToYmd(v)`: "" without a date; otherwise the year as it is, a dash, the month
      padded to two digits, a dash, the day padded to two digits. */
  function DateValueToYmd(v: Option<DateValue>): (r: string)
    ensures v.None? <==> r == ""
    ensures v.Some? ==> var y := Decimal(v.value.year);
                        |y| < |r| && r[..|y|] == y && r[|y|] == '-'
    ensures v.Some? && v.value.month < 100 && v.value.day < 100 ==>
              |r| == |Decimal(v.value.year)| + 6
  {
    match v
    case None => ""
    case Some(d) =>
      JoinYmd(Decimal(d.year), Pad2(d.month), Pad2(d.day));
      Pad2Value(d.month);
      Pad2Value(d.day);
      Decimal(d.year) + "-" + Pad2(d.month) + "-" + Pad2(d.day)
  }

  /** Reads back a `year-MM-DD` string: a non-empty run of digits, then two dashes each
      followed by exactly two digits. */
  function ParseYmd(s: string): (r: Option<DateValue>)
    ensures r.Some? ==> r.value.month < 100 && r.value.day < 100
  {
    var n := |s|;
    if n >= 7 && s[n - 6] == '-' && s[n - 3] == '-'
       && AllDigits(s[..n - 6]) && AllDigits(s[n - 5..n - 3]) && AllDigits(s[n - 2..])
    then
      DigitsValueBound(s[n - 5..n - 3]);
      DigitsValueBound(s[n - 2..]);
      Some(DateValue(DigitsValue(s[..n - 6]), DigitsValue(s[n - 5..n - 3]), DigitsValue(s[n - 2..])))
    else None
  }

  /** The year field comes first and runs up to the first dash. */
  lemma JoinYmd(y: string, m: string, dd: string)
    ensures var s := y + "-" + m + "-" + dd;
            |s| == |y| + |m| + |dd| + 2 && s[..|y|] == y && s[|y|] == '-'
  {
    var s := y + "-" + m + "-" + dd;
    assert s == y + ("-" + m + "-" + dd);
  }

  /** Where the three fields of a formatted date sit. */
  lemma SplitYmd(y: string, m: string, dd: string)
    requires |m| == 2 && |dd| == 2
    ensures var s := y + "-" + m + "-" + dd;
            && |s| == |y| + 6 && s[|s| - 6] == '-' && s[|s| - 3] == '-'
            && s[..|s| - 6] == y && s[|s| - 5..|s| - 3] == m && s[|s| - 2..] == dd
  {
    var s := y + "-" + m + "-" + dd;
    assert s == y + ("-" + m + "-" + dd);
    assert s[|y|..] == "-" + m + "-" + dd;
  }

  /** A formatted date reads back as the date it came from, whenever month and day fit in
      two digits. */
  lemma YmdRoundTrip(d: DateValue)
    requires d.month < 100 && d.day < 100
    ensures ParseYmd(DateValueToYmd(Some(d))) == Some(d)
  {
    Pad2Value(d.month);
    Pad2Value(d.day);
    DecimalRoundTrip(d.year);
    SplitYmd(Decimal(d.year), Pad2(d.month), Pad2(d.day));
  }

  /** Chronological order of calendar fields. */
  predicate DateLess(a: DateValue, b: DateValue) {
    || a.year < b.year
    || (a.year == b.year && a.month < b.month)
    || (a.year == b.year && a.month == b.month && a.day < b.day)
  }

  /** Two concatenations with equally long first parts are equal exactly when both parts are. */
  lemma ConcatEqual(x1: string, y1: string, x2: string, y2: string)
    requires |x1| == |x2|
    ensures x1 + y1 == x2 + y2 <==> x1 == x2 && y1 == y2
  {
    if x1 + y1 == x2 + y2 {
      assert x1 == (x1 + y1)[..|x1|] && x2 == (x2 + y2)[..|x2|];
      assert y1 == (x1 + y1)[|x1|..] && y2 == (x2 + y2)[|x2|..];
    }
  }

  /** Two-digit fields compare as strings the way they compare as numbers. */
  lemma Pad2Order(a: nat, b: nat)
    requires a < 100 && b < 100
    ensures |Pad2(a)| == 2 && |Pad2(b)| == 2
    ensures LexLess(Pad2(a), Pad2(b)) <==> a < b
    ensures Pad2(a) == Pad2(b) <==> a == b
  {
    Pad2Value(a);
    Pad2Value(b);
    LexLessDigits(Pad2(a), Pad2(b));
  }

  /** Four-digit years compare as strings the way they compare as numbers. */
  lemma YearOrder(a: nat, b: nat)
    requires 1000 <= a < 10000 && 1000 <= b < 10000
    ensures |Decimal(a)| == 4 && |Decimal(b)| == 4
    ensures LexLess(Decimal(a), Decimal(b)) <==> a < b
    ensures Decimal(a) == Decimal(b) <==> a == b
  {
    DecimalOfFourDigits(a);
    DecimalOfFourDigits(b);
    DecimalRoundTrip(a);
    DecimalRoundTrip(b);
    LexLessDigits(Decimal(a), Decimal(b));
  }

  /** The `year-MM-` part of a formatted date. */
  function YearMonth(d: DateValue): string {
    Decimal(d.year) + "-" + Pad2(d.month) + "-"
  }

  /** Appending the same separator to two strings of one length changes neither their
      order nor their equality. */
  lemma DashOrder(x1: string, x2: string)
    requires |x1| == |x2|
    ensures LexLess(x1 + "-", x2 + "-") <==> LexLess(x1, x2)
    ensures x1 + "-" == x2 + "-" <==> x1 == x2
  {
    var d := "-";
    LexLessIrreflexive(d);
    ConcatOrder(x1, d, x2, d);
    ConcatEqual(x1, d, x2, d);
  }

  /** With equally long first parts, two concatenations compare by their first parts and
      then by their second. */
  lemma ConcatOrder(p1: string, y1: string, p2: string, y2: string)
    requires |p1| == |p2|
    ensures LexLess(p1 + y1, p2 + y2) <==> LexLess(p1, p2) || (p1 == p2 && LexLess(y1, y2))
  {
    LexLessIrreflexive(p1);
    LexLessConcat(p1, y1, p2, y2);
  }

  /** Two `x-y` strings whose parts have matching lengths are equal exactly when both parts
      are, and compare by their first parts and then by their second. */
  lemma FieldsOrder(x1: string, y1: string, x2: string, y2: string)
    requires |x1| == |x2| && |y1| == |y2|
    ensures x1 + "-" + y1 == x2 + "-" + y2 <==> x1 == x2 && y1 == y2
    ensures LexLess(x1 + "-" + y1, x2 + "-" + y2) <==> LexLess(x1, x2) || (x1 == x2 && LexLess(y1, y2))
  {
    var p1, p2 := x1 + "-", x2 + "-";
    DashOrder(x1, x2);
    ConcatOrder(p1, y1, p2, y2);
    ConcatEqual(p1, y1, p2, y2);
  }

  /** For four-digit years, `year-MM` strings are seven characters long and compare as
      (year, month) pairs. */
  lemma YearDashMonthOrder(a: DateValue, b: DateValue)
    requires 1000 <= a.year < 10000 && 1000 <= b.year < 10000
    requires a.month < 100 && b.month < 100
    ensures var q1, q2 := Decimal(a.year) + "-" + Pad2(a.month), Decimal(b.year) + "-" + Pad2(b.month);
            && |q1| == 7 && |q2| == 7
            && (q1 == q2 <==> a.year == b.year && a.month == b.month)
            && (LexLess(q1, q2) <==> a.year < b.year || (a.year == b.year && a.month < b.month))
  {
    YearOrder(a.year, b.year);
    Pad2Order(a.month, b.month);
    FieldsOrder(Decimal(a.year), Pad2(a.month), Decimal(b.year), Pad2(b.month));
  }

  /** For four-digit years the `year-MM-` parts are eight characters long and compare as
      (year, month) pairs. */
  lemma YearMonthOrder(a: DateValue, b: DateValue)
    requires 1000 <= a.year < 10000 && 1000 <= b.year < 10000
    requires a.month < 100 && b.month < 100
    ensures |YearMonth(a)| == 8 && |YearMonth(b)| == 8
    ensures YearMonth(a) == YearMonth(b) <==> a.year == b.year && a.month == b.month
    ensures LexLess(YearMonth(a), YearMonth(b)) <==>
              a.year < b.year || (a.year == b.year && a.month < b.month)
  {
    YearDashMonthOrder(a, b);
    DashOrder(Decimal(a.year) + "-" + Pad2(a.month), Decimal(b.year) + "-" + Pad2(b.month));
  }

  /** For dates with four-digit years, the string order of their formatted forms is their
      chronological order. */
  lemma YmdOrder(a: DateValue, b: DateValue)
    requires 1000 <= a.year < 10000 && 1000 <= b.year < 10000
    requires a.month < 100 && b.month < 100 && a.day < 100 && b.day < 100
    ensures LexLess(DateValueToYmd(Some(a)), DateValueToYmd(Some(b))) <==> DateLess(a, b)
  {
    YearMonthOrder(a, b);
    Pad2Order(a.day, b.day);
    assert DateValueToYmd(Some(a)) == YearMonth(a) + Pad2(a.day);
    assert DateValueToYmd(Some(b)) == YearMonth(b) + Pad2(b.day);
    LexLessConcat(YearMonth(a), Pad2(a.day), YearMonth(b), Pad2(b.day));
  }

  // ---------------------------------------------------------------- the age field

  /** `value.replace(/\D/g, "")`: the ASCII digits of `value`, in their order. */
  function DigitsOnly(value: string): (r: string)
    ensures |r| <= |value|
  {
    if value == [] then []
    else (if IsDigit(value[0]) then [value[0]] else []) + DigitsOnly(value[1..])
  }

  /** The filter keeps every digit as often as it occurs, and nothing else. */
  lemma {:induction false} DigitsOnlyCounts(value: string)
    ensures AllDigits(DigitsOnly(value))
    ensures forall c :: IsDigit(c) ==> multiset(DigitsOnly(value))[c] == multiset(value)[c]
    ensures forall c :: !IsDigit(c) ==> multiset(DigitsOnly(value))[c] == 0
  {
    if value != [] {
      assert value == [value[0]] + value[1..];
      DigitsOnlyCounts(value[1..]);
    }
  }

  /** The filter distributes over concatenation, so it never reorders what it keeps. */
  lemma {:induction false} DigitsOnlyConcat(a: string, b: string)
    ensures DigitsOnly(a + b) == DigitsOnly(a) + DigitsOnly(b)
  {
    if a == [] {
      assert a + b == b;
    } else {
      var h := if IsDigit(a[0]) then [a[0]] else [];
      calc {
        DigitsOnly(a + b);
        { assert (a + b)[0] == a[0]; assert (a + b)[1..] == a[1..] + b; }
        h + DigitsOnly(a[1..] + b);
        { DigitsOnlyConcat(a[1..], b); }
        h + (DigitsOnly(a[1..]) + DigitsOnly(b));
        (h + DigitsOnly(a[1..])) + DigitsOnly(b);
      }
    }
  }

  /** A string of digits is left as it is, and nothing else is. */
  lemma {:induction false} DigitsOnlyFixes(s: string)
    ensures DigitsOnly(s) == s <==> AllDigits(s)
  {
    DigitsOnlyCounts(s);
    if s != [] && AllDigits(s) {
      assert AllDigits(s[1..]) by {
        forall k | 0 <= k < |s| - 1 ensures IsDigit(s[1..][k]) {
          assert s[1..][k] == s[k + 1];
        }
      }
      DigitsOnlyFixes(s[1..]);
      assert DigitsOnly(s) == [s[0]] + s[1..];
      assert [s[0]] + s[1..] == s;
    }
  }

  lemma DigitsOnlyIdempotent(s: string)
    ensures DigitsOnly(DigitsOnly(s)) == DigitsOnly(s)
  {
    DigitsOnlyCounts(s);
    DigitsOnlyFixes(DigitsOnly(s));
  }

  /** The age input; its `onChange` rewrites the element's value in place. */
  class TextInput {
    var value: string

    constructor (value: string)
      ensures this.value == value
    {
      this.value := value;
    }
  }

  /** `e.target.value = e.target.value.replace(/\D/g, "")`. */
  method OnAgeChange(target: TextInput)
    modifies target
    ensures target.value == DigitsOnly(old(target.value))
  {
    target.value := DigitsOnly(target.value);
  }

  // ---------------------------------------------------------------- roles

  predicate NoDuplicates(s: seq<string>) {
    forall i, j :: 0 <= i < j < |s| ==> s[i] != s[j]
  }

  /** A duplicate-free sequence has its head outside its tail, and a duplicate-free tail. */
  lemma HeadAndTail(s: seq<string>)
    requires s != []
    ensures NoDuplicates(s) ==> s[0] !in s[1..] && NoDuplicates(s[1..])
  {
    if NoDuplicates(s) {
      forall j | 0 <= j < |s| - 1 ensures s[1..][j] != s[0] {
        assert s[0] != s[j + 1];
      }
    }
  }

  /** The role picker's `onSelectionChange(key)`: nothing happens for an empty key or one
      already selected; otherwise the key is appended. */
  function AddRole(selected: seq<string>, key: Option<string>): (r: seq<string>)
    ensures !Truthy(key) || key.value in selected ==> r == selected
    ensures Truthy(key) && key.value !in selected ==> r == selected + [key.value]
    ensures forall x :: x in r <==> x in selected || (Truthy(key) && x == key.value)
    ensures NoDuplicates(selected) ==> NoDuplicates(r)
  {
    if !Truthy(key) || key.value in selected then selected else selected + [key.value]
  }

  /** A chip's `onClose`: `selected.filter((x) => x !== k)`. */
  function RemoveRole(selected: seq<string>, k: string): (r: seq<string>)
    ensures k !in r && |r| <= |selected|
    ensures forall x :: x != k ==> (x in r <==> x in selected)
    ensures NoDuplicates(selected) ==> NoDuplicates(r)
  {
    if selected == [] then []
    else
      var rest := RemoveRole(selected[1..], k);
      assert forall x :: x in selected <==> x == selected[0] || x in selected[1..];
      HeadAndTail(selected);
      (if selected[0] == k then [] else [selected[0]]) + rest
  }

  /** Removal distributes over concatenation: the remaining roles keep their order. */
  lemma {:induction false} RemoveRoleConcat(a: seq<string>, b: seq<string>, k: string)
    ensures RemoveRole(a + b, k) == RemoveRole(a, k) + RemoveRole(b, k)
  {
    if a != [] {
      assert (a + b)[0] == a[0] && (a + b)[1..] == a[1..] + b;
      RemoveRoleConcat(a[1..], b, k);
    } else {
      assert a + b == b;
    }
  }

  /** Removing a role that is not selected changes nothing. */
  lemma {:induction false} RemoveAbsentRole(s: seq<string>, k: string)
    requires k !in s
    ensures RemoveRole(s, k) == s
  {
    if s != [] {
      RemoveAbsentRole(s[1..], k);
    }
  }

  /** Removing a freshly added role gives back the selection it was added to. */
  lemma RemoveUndoesAdd(s: seq<string>, k: string)
    requires k != "" && k !in s
    ensures RemoveRole(AddRole(s, Some(k)), k) == s
  {
    RemoveRoleConcat(s, [k], k);
    RemoveAbsentRole(s, k);
    assert RemoveRole([k], k) == [];
  }

  /** From a duplicate-free selection, removing a selected role drops exactly one entry. */
  lemma {:induction false} RemoveSelectedRole(s: seq<string>, k: string)
    requires NoDuplicates(s) && k in s
    ensures |RemoveRole(s, k)| == |s| - 1
  {
    if s[0] == k {
      assert k !in s[1..] by {
        forall j | 0 <= j < |s[1..]| ensures s[1..][j] != k {
          assert s[0] != s[j + 1];
        }
      }
      RemoveAbsentRole(s[1..], k);
    } else {
      RemoveSelectedRole(s[1..], k);
    }
  }

  // ---------------------------------------------------------------- validators

  /** The result of a field rule: accepted, or the message shown under the field. */
  datatype Validation = Valid | Invalid(message: string)

  /** A bare `required: message` rule on a text or single-choice field: an absent or empty
      value is refused with the message. */
  function ValidateRequired(v: Option<string>, message: string): (r: Validation)
    ensures r == Valid <==> Truthy(v)
    ensures r != Valid ==> r == Invalid(message)
  {
    if Truthy(v) then Valid else Invalid(message)
  }

  /** The roles field: `v?.length ? true : "Select at least one role"`. */
  function ValidateRoles(v: seq<string>): (r: Validation)
    ensures r == Valid <==> |v| > 0
    ensures r != Valid ==> r == Invalid("Select at least one role")
  {
    if |v| > 0 then Valid else Invalid("Select at least one role")
  }

  /** The roles field is never refused once a role is added through the picker. */
  lemma AddedRoleSatisfiesRoles(selected: seq<string>, k: string)
    requires k != ""
    ensures ValidateRoles(AddRole(selected, Some(k))) == Valid
  {
    assert k in AddRole(selected, Some(k));
  }

  /** The class `[^\s@]`. */
  predicate IsEmailChar(c: char) {
    c !in JsWhitespace && c != '@'
  }

  /** One or more characters of the class `[^\s@]`. */
  predicate EmailRun(s: string) {
    |s| > 0 && forall i :: 0 <= i < |s| ==> IsEmailChar(s[i])
  }

  /** `/^[^\s@]+@[^\s@]+\.[^\s@]+$/.test(s)`: some `@` at `a` and some `.` at `d` split `s`
      into three non-empty runs without white space or `@`. */
  predicate MatchesEmailPattern(s: string) {
    exists a, d :: 0 < a && a + 1 < d && d + 1 < |s| && s[a] == '@' && s[d] == '.'
                   && EmailRun(s[..a]) && EmailRun(s[a + 1..d]) && EmailRun(s[d + 1..])
  }

  /** A matching address has no white space and exactly one `@`, with something before it. */
  lemma EmailShape(s: string)
    requires MatchesEmailPattern(s)
    ensures forall i :: 0 <= i < |s| ==> s[i] !in JsWhitespace
    ensures exists a :: 0 < a < |s| && s[a] == '@' && forall i :: 0 <= i < |s| && i != a ==> s[i] != '@'
  {
    var a, d :| 0 < a && a + 1 < d && d + 1 < |s| && s[a] == '@' && s[d] == '.'
                && EmailRun(s[..a]) && EmailRun(s[a + 1..d]) && EmailRun(s[d + 1..]);
    forall i | 0 <= i < |s| && i != a ensures IsEmailChar(s[i]) {
      if i < a {
        assert s[..a][i] == s[i];
      } else if i < d {
        assert s[a + 1..d][i - a - 1] == s[i];
      } else if i > d {
        assert s[d + 1..][i - d - 1] == s[i];
      }
    }
  }

  lemma EmailExamples()
    ensures MatchesEmailPattern("a@b.co")
    ensures !MatchesEmailPattern("a@b")
  {
    var s := "a@b.co";
    assert s[..1] == "a" && s[2..3] == "b" && s[4..] == "co";
    assert EmailRun(s[..1]) && EmailRun(s[1 + 1..3]) && EmailRun(s[3 + 1..]);
    assert 0 < 1 && 1 + 1 < 3 && 3 + 1 < |s| && s[1] == '@' && s[3] == '.';
  }

  /** The email field: required, then the pattern. */
  function ValidateEmail(v: string): (r: Validation)
    ensures r == Valid <==> MatchesEmailPattern(v)
    ensures v == "" ==> r == Invalid("Required")
    ensures v != "" && !MatchesEmailPattern(v) ==> r == Invalid("Invalid email")
  {
    if v == "" then Invalid("Required")
    else if MatchesEmailPattern(v) then Valid
    else Invalid("Invalid email")
  }

  /** The hidden range-end field: required, then `!rangeStart || v >= rangeStart`, where
      `>=` is string order. */
  function ValidateRangeEnd(rangeStart: string, v: string): (r: Validation)
    ensures r == Valid <==> v != "" && (rangeStart == "" || !LexLess(v, rangeStart))
    ensures v == "" ==> r == Invalid("End required")
    ensures v != "" && rangeStart != "" && LexLess(v, rangeStart) ==> r == Invalid("End must be after start")
  {
    if v == "" then Invalid("End required")
    else if rangeStart == "" || !LexLess(v, rangeStart) then Valid
    else Invalid("End must be after start")
  }

  /** With both ends chosen by the range picker (four-digit years), the range check accepts
      exactly the ranges whose end is not before their start. */
  lemma RangeEndIsDateOrder(start: DateValue, end: DateValue)
    requires 1000 <= start.year < 10000 && 1000 <= end.year < 10000
    requires start.month < 100 && end.month < 100 && start.day < 100 && end.day < 100
    ensures ValidateRangeEnd(DateValueToYmd(Some(start)), DateValueToYmd(Some(end))) == Valid
            <==> !DateLess(end, start)
  {
    YmdOrder(end, start);
  }

  /** The confirm-password field: required, then equal to the password field. */
  function ValidateConfirmPassword(password: string, v: string): (r: Validation)
    ensures r == Valid <==> v != "" && v == password
    ensures v == "" ==> r == Invalid("Required")
    ensures v != "" && v != password ==> r == Invalid("Passwords do not match")
  {
    if v == "" then Invalid("Required")
    else if v == password then Valid
    else Invalid("Passwords do not match")
  }

  // ---------------------------------------------------------------- plan label

  /** An entry of a dropdown's option list. */
  datatype Choice = Choice(key: string, name: string)

  const Plans: seq<Choice> := [Choice("free", "Free"), Choice("pro", "Pro"), Choice("business", "Business")]

  const Roles: seq<Choice> := [
    Choice("frontend", "Frontend Engineer"),
    Choice("backend", "Backend Engineer"),
    Choice("fullstack", "Fullstack Engineer"),
    Choice("designer", "Product Designer"),
    Choice("pm", "Product Manager")
  ]

  /** `options.find((p) => p.key === key)`: the first option with that key, if any. */
  function Find(options: seq<Choice>, key: Option<string>): (r: Option<Choice>)
    ensures r.None? <==> forall i :: 0 <= i < |options| ==> Some(options[i].key) != key
    ensures r.Some? ==> r.value in options && Some(r.value.key) == key
    ensures forall i :: (&& 0 <= i < |options| && Some(options[i].key) == key
                         && forall j :: 0 <= j < i ==> Some(options[j].key) != key)
                        ==> r == Some(options[i])
  {
    if options == [] then None
    else if Some(options[0].key) == key then Some(options[0])
    else
      assert forall i :: 0 < i < |options| ==> options[i] == options[1..][i - 1];
      Find(options[1..], key)
  }

  /** The text on the chip of a selected role: `ROLES.find((r) => r.key === k)?.label`,
      absent for a key outside the role list. */
  function RoleChipLabel(k: string): (r: Option<string>)
    ensures r.Some? <==> exists i :: 0 <= i < |Roles| && Roles[i].key == k
    ensures r.Some? ==> Choice(k, r.value) in Roles
  {
    match Find(Roles, Some(k))
    case Some(c) => Some(c.name)
    case None => None
  }

  /** `selectedPlanLabel`: the label of the plan whose key is the selected one, else
      "Choose a plan". */
  function SelectedPlanLabel(plan: Option<string>): (r: string)
    ensures forall i :: 0 <= i < |Plans| && Some(Plans[i].key) == plan ==> r == Plans[i].name
    ensures (forall i :: 0 <= i < |Plans| ==> Some(Plans[i].key) != plan) ==> r == "Choose a plan"
  {
    match Find(Plans, plan)
    case Some(p) => p.name
    case None => "Choose a plan"
  }
}
