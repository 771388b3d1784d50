/**
 * The table-booking form's schema (`bookingSchema` in `src/lib/validations.ts`):
 * one constraint per field, checked field by field in declaration order, with
 * one message per failed constraint. Parsing succeeds exactly when no
 * constraint fails.
 *
 * Strings are measured as JavaScript measures them (UTF-16 code units). The
 * party size is the number after coercion. Email well-formedness belongs to
 * the validation library, so the model takes it as a parameter `isEmail`.
 */
module Booking {
  import opened Wrappers

  /** A submitted booking; `requests` is optional. */
  datatype Booking = Booking(
    date: string,
    time: string,
    partySize: real,
    name: string,
    email: string,
    phone: string,
    requests: Option<string>)

  /** The constrained fields, in the order the schema declares them. */
  datatype Field = Date | Time | PartySize | Name | Email | Phone

  /** A failed constraint, one constructor per message the schema can give. */
  datatype Issue =
    | DateRequired | TimeRequired | TooFewGuests | TooManyGuests
    | NameRequired | InvalidEmail | PhoneRequired
  {
    /** The field the issue is reported on. */
    function Path(): Field {
      match this
      case DateRequired => Date
      case TimeRequired => Time
      case TooFewGuests | TooManyGuests => PartySize
      case NameRequired => Name
      case InvalidEmail => Email
      case PhoneRequired => Phone
    }

    /** The message text the schema attaches to the issue. */
    function Message(): string {
      match this
      case DateRequired => "Date is required"
      case TimeRequired => "Time is required"
      case TooFewGuests => "Must be at least 1 guest"
      case TooManyGuests => "Max 20 guests for online booking"
      case NameRequired => "Name is required"
      case InvalidEmail => "Invalid email address"
      case PhoneRequired => "Phone number is required"
    }

    /** Position of the check in the schema. */
    function Rank(): nat {
      match this
      case DateRequired => 0
      case TimeRequired => 1
      case TooFewGuests => 2
      case TooManyGuests => 3
      case NameRequired => 4
      case InvalidEmail => 5
      case PhoneRequired => 6
    }
  }

  const MinGuests: real := 1.0
  const MaxGuests: real := 20.0
  const MinNameLength: nat := 2
  const MinPhoneLength: nat := 10

  /** Position of a field in the schema. */
  function FieldRank(f: Field): nat {
    match f
    case Date => 0
    case Time => 1
    case PartySize => 2
    case Name => 3
    case Email => 4
    case Phone => 5
  }

  /**
   * JavaScript's `s.length`: UTF-16 code units, so a character outside the
   * Basic Multilingual Plane counts twice.
   */
  function Utf16Length(s: string): (n: nat)
    ensures |s| <= n <= 2 * |s|
    ensures n == 0 <==> s == ""
    ensures (forall i :: 0 <= i < |s| ==> s[i] <= '\U{FFFF}') ==> n == |s|
  {
    if s == [] then 0
    else (if s[0] <= '\U{FFFF}' then 1 else 2) + Utf16Length(s[1..])
  }

  /** What the schema demands of each field, as one conjunction. */
  predicate Accepts(b: Booking, isEmail: string -> bool) {
    && b.date != ""
    && b.time != ""
    && MinGuests <= b.partySize <= MaxGuests
    && Utf16Length(b.name) >= MinNameLength
    && isEmail(b.email)
    && Utf16Length(b.phone) >= MinPhoneLength
  }

  /** Issues listed in schema order, each at most once. */
  predicate InSchemaOrder(issues: seq<Issue>) {
    forall i, j :: 0 <= i < j < |issues| ==> issues[i].Rank() < issues[j].Rank()
  }

  /** Every check of the schema, in the order it runs them. */
  const Checks: seq<Issue> :=
    [DateRequired, TimeRequired, TooFewGuests, TooManyGuests, NameRequired, InvalidEmail, PhoneRequired]

  /** The constraint behind `issue` fails for `b`. */
  predicate Violated(b: Booking, isEmail: string -> bool, issue: Issue) {
    match issue
    case DateRequired => Utf16Length(b.date) < 1
    case TimeRequired => Utf16Length(b.time) < 1
    case TooFewGuests => b.partySize < MinGuests
    case TooManyGuests => b.partySize > MaxGuests
    case NameRequired => Utf16Length(b.name) < MinNameLength
    case InvalidEmail => !isEmail(b.email)
    case PhoneRequired => Utf16Length(b.phone) < MinPhoneLength
  }

  /** Runs `checks` in order and keeps the issues of those that fail. */
  function Collect(checks: seq<Issue>, b: Booking, isEmail: string -> bool): (r: seq<Issue>)
    ensures forall x :: x in r <==> x in checks && Violated(b, isEmail, x)
    ensures InSchemaOrder(checks) ==> InSchemaOrder(r)
  {
    if checks == [] then []
    else
      var rest := Collect(checks[1..], b, isEmail);
      assert forall x :: x in checks[1..] ==> x in checks;
      assert InSchemaOrder(checks) ==> forall k :: 0 <= k < |rest| ==> checks[0].Rank() < rest[k].Rank() by {
        if InSchemaOrder(checks) {
          forall k | 0 <= k < |rest| ensures checks[0].Rank() < rest[k].Rank() {
            assert rest[k] in checks[1..];
            var j :| 0 <= j < |checks[1..]| && checks[1..][j] == rest[k];
            assert checks[j + 1] == rest[k];
          }
        }
      }
      if Violated(b, isEmail, checks[0]) then [checks[0]] + rest else rest
  }

  /** The catalogue holds every check. */
  lemma ChecksComplete()
    ensures forall x: Issue :: x in Checks
  {
    forall x: Issue ensures x in Checks {
      assert Checks[x.Rank()] == x;
    }
  }

  /** The conjunction of field constraints holds exactly when no check fails. */
  lemma AcceptsIffNothingViolated(b: Booking, isEmail: string -> bool)
    ensures Accepts(b, isEmail) <==> forall x :: !Violated(b, isEmail, x)
  {
    forall x: Issue ensures Accepts(b, isEmail) ==> !Violated(b, isEmail, x) {
      match x
      case DateRequired => assert Accepts(b, isEmail) ==> b.date != "";
      case TimeRequired => assert Accepts(b, isEmail) ==> b.time != "";
      case _ =>
    }
    assert (forall x :: !Violated(b, isEmail, x)) ==> Accepts(b, isEmail) by {
      assert !Violated(b, isEmail, DateRequired) ==> b.date != "";
      assert !Violated(b, isEmail, TimeRequired) ==> b.time != "";
      assert !Violated(b, isEmail, TooFewGuests) && !Violated(b, isEmail, TooManyGuests) ==>
               MinGuests <= b.partySize <= MaxGuests;
      assert !Violated(b, isEmail, NameRequired) ==> Utf16Length(b.name) >= MinNameLength;
      assert !Violated(b, isEmail, InvalidEmail) ==> isEmail(b.email);
      assert !Violated(b, isEmail, PhoneRequired) ==> Utf16Length(b.phone) >= MinPhoneLength;
    }
  }

  /**
   * `bookingSchema.safeParse(b)`: the issues found, in schema order; an empty
   * list is success, which happens exactly when the booking meets every
   * constraint. An issue is reported exactly when its constraint fails.
   */
  function Validate(b: Booking, isEmail: string -> bool): (issues: seq<Issue>)
    ensures issues == [] <==> Accepts(b, isEmail)
    ensures InSchemaOrder(issues)
    ensures forall x :: x in issues <==> Violated(b, isEmail, x)
  {
    var issues := Collect(Checks, b, isEmail);
    assert forall x :: x in issues <==> Violated(b, isEmail, x) by {
      ChecksComplete();
    }
    assert issues == [] <==> Accepts(b, isEmail) by {
      AcceptsIffNothingViolated(b, isEmail);
      assert issues != [] ==> issues[0] in issues;
    }
    issues
  }

  /** Each issue is reported exactly when its constraint fails. */
  lemma IssueReportedIffViolated(b: Booking, isEmail: string -> bool)
    ensures DateRequired in Validate(b, isEmail) <==> b.date == ""
    ensures TimeRequired in Validate(b, isEmail) <==> b.time == ""
    ensures TooFewGuests in Validate(b, isEmail) <==> b.partySize < MinGuests
    ensures TooManyGuests in Validate(b, isEmail) <==> b.partySize > MaxGuests
    ensures NameRequired in Validate(b, isEmail) <==> Utf16Length(b.name) < MinNameLength
    ensures InvalidEmail in Validate(b, isEmail) <==> !isEmail(b.email)
    ensures PhoneRequired in Validate(b, isEmail) <==> Utf16Length(b.phone) < MinPhoneLength
  {
    assert Violated(b, isEmail, DateRequired) == (b.date == "");
    assert Violated(b, isEmail, TimeRequired) == (b.time == "");
  }

  /** Issues in schema order are also in field order. */
  lemma SchemaOrderIsFieldOrder(issues: seq<Issue>)
    requires InSchemaOrder(issues)
    ensures forall i, j :: 0 <= i < j < |issues| ==> FieldRank(issues[i].Path()) <= FieldRank(issues[j].Path())
  {
  }

  // ---------------------------------------------------------------------
  // Properties
  // ---------------------------------------------------------------------

  /** The optional `requests` text never changes the verdict or the issues. */
  lemma RequestsIrrelevant(b: Booking, requests: Option<string>, isEmail: string -> bool)
    ensures Validate(b.(requests := requests), isEmail) == Validate(b, isEmail)
  {
    CollectFollowsVerdicts(Checks, b.(requests := requests), b, isEmail);
  }

  /** Two bookings on which every check agrees get the same issue list. */
  lemma {:induction false} CollectFollowsVerdicts(checks: seq<Issue>, b: Booking, b': Booking, isEmail: string -> bool)
    requires forall x :: Violated(b, isEmail, x) == Violated(b', isEmail, x)
    ensures Collect(checks, b, isEmail) == Collect(checks, b', isEmail)
  {
    if checks != [] {
      CollectFollowsVerdicts(checks[1..], b, b', isEmail);
    }
  }

  /** An ordered issue list that holds nothing but `x` is `[x]`. */
  lemma OnlyIssue(issues: seq<Issue>, x: Issue)
    requires InSchemaOrder(issues)
    requires forall y :: y in issues <==> y == x
    ensures issues == [x]
  {
    assert x in issues;
    forall i | 0 <= i < |issues| ensures issues[i] == x {
      assert issues[i] in issues;
    }
    assert issues[0] == x && issues[|issues| - 1] == x;
    assert |issues| == 1;
  }

  /** When every other field is fine, a bad email is the one and only issue. */
  lemma EmailAloneFails(b: Booking, isEmail: string -> bool)
    requires b.date != "" && b.time != "" && MinGuests <= b.partySize <= MaxGuests
    requires Utf16Length(b.name) >= MinNameLength && Utf16Length(b.phone) >= MinPhoneLength
    requires !isEmail(b.email)
    ensures Validate(b, isEmail) == [InvalidEmail]
  {
    OnlyIssue(Validate(b, isEmail), InvalidEmail);
  }

  /** When every other field is fine, a party size out of range is the one and only issue. */
  lemma PartySizeAloneFails(b: Booking, isEmail: string -> bool)
    requires b.date != "" && b.time != ""
    requires Utf16Length(b.name) >= MinNameLength && isEmail(b.email) && Utf16Length(b.phone) >= MinPhoneLength
    ensures b.partySize < MinGuests ==> Validate(b, isEmail) == [TooFewGuests]
    ensures b.partySize > MaxGuests ==> Validate(b, isEmail) == [TooManyGuests]
  {
    if b.partySize < MinGuests {
      OnlyIssue(Validate(b, isEmail), TooFewGuests);
    } else if b.partySize > MaxGuests {
      OnlyIssue(Validate(b, isEmail), TooManyGuests);
    }
  }

  /** The accepted example booking: four guests, a ten-digit phone number. */
  function ExampleBooking(): Booking {
    Booking("2025-12-25", "19:00", 4.0, "John Doe", "john@example.com", "1234567890", Some("None"))
  }

  lemma ExampleAccepted(isEmail: string -> bool)
    requires isEmail("john@example.com")
    ensures Validate(ExampleBooking(), isEmail) == []
  {
    var b := ExampleBooking();
    assert |b.name| == 8 && |b.phone| == 10;
  }

  /** The example with a malformed email (and no requests) fails on the email alone. */
  lemma BadEmailExample(isEmail: string -> bool)
    requires !isEmail("not-an-email")
    ensures Validate(ExampleBooking().(email := "not-an-email", requests := None), isEmail)[0].Message()
            == "Invalid email address"
  {
    var b := ExampleBooking().(email := "not-an-email", requests := None);
    assert |b.name| == 8 && |b.phone| == 10;
    EmailAloneFails(b, isEmail);
  }

  /** The example with no guests is refused. */
  lemma NoGuestsExample(isEmail: string -> bool)
    ensures Validate(ExampleBooking().(partySize := 0.0, requests := None), isEmail) != []
  {
  }

  /**
   * Name length is counted in UTF-16 code units: two characters always
   * suffice, one character from the Basic Multilingual Plane does not, and
   * one character outside it does (it counts as two).
   */
  lemma NameLengthBoundary(b: Booking, isEmail: string -> bool)
    ensures |b.name| >= MinNameLength ==> NameRequired !in Validate(b, isEmail)
    ensures b.name == "" ==> NameRequired in Validate(b, isEmail)
    ensures |b.name| == 1 ==> (NameRequired in Validate(b, isEmail) <==> b.name[0] <= '\U{FFFF}')
  {
    if |b.name| == 1 {
      assert b.name[1..] == "";
    }
  }
}
