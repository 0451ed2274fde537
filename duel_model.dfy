/** The duel record schema: the email recognizer, the `difficulty` and `status`
    enumerations, the `pending` default and the required fields, and the
    validation a new record goes through before it is stored. */
module DuelModel {
  import opened Wrappers
  import opened Strings

  /** A store-assigned object identifier (users and duels). */
  type ObjectId = string

  // ---------------------------------------------------------------------------
  // The opponent email recognizer  /^[\w-\.]+@([\w-]+\.)+[\w-]{2,4}$/
  // ---------------------------------------------------------------------------

  /** `\w` outside unicode mode: ASCII letters, digits and underscore. */
  predicate IsWordChar(c: char)
  {
    ('A' <= c <= 'Z') || ('a' <= c <= 'z') || ('0' <= c <= '9') || c == '_'
  }

  /** `[\w-\.]`: a class escape next to `-` makes the dash literal, so no range is formed. */
  predicate IsLocalChar(c: char) { IsWordChar(c) || c == '-' || c == '.' }

  /** `[\w-]` */
  predicate IsLabelChar(c: char) { IsWordChar(c) || c == '-' }

  /** `[\w-\.]+` */
  predicate IsLocalPart(s: string)
  {
    |s| > 0 && forall i :: 0 <= i < |s| ==> IsLocalChar(s[i])
  }

  /** `[\w-]+` */
  predicate IsLabel(s: string)
  {
    |s| > 0 && forall i :: 0 <= i < |s| ==> IsLabelChar(s[i])
  }

  /** `[\w-]{2,4}` */
  predicate IsTld(s: string)
  {
    2 <= |s| <= 4 && forall i :: 0 <= i < |s| ==> IsLabelChar(s[i])
  }

  /** Matches `([\w-]+\.)+[\w-]{2,4}$` against the text after the `@`. A label
      cannot hold a dot, so the first group always ends at the first dot; what
      follows is either the final 2-4 character label or another group. */
  predicate MatchDomain(d: string)
    decreases |d|
  {
    var dot := IndexOf(d, '.');
    dot < |d| && IsLabel(d[..dot]) && (IsTld(d[dot + 1..]) || MatchDomain(d[dot + 1..]))
  }

  /** The schema's `opponentEmail` validator. The local part cannot hold an `@`,
      so the match always splits at the first `@`. */
  predicate IsValidEmail(v: string)
  {
    var at := IndexOf(v, '@');
    at < |v| && IsLocalPart(v[..at]) && MatchDomain(v[at + 1..])
  }

  // The shape of an accepted address, written independently of the matcher.

  /** `l1.l2. ... .lk.` for labels `[l1, ..., lk]` */
  function Dotted(labels: seq<string>): string
  {
    if labels == [] then [] else labels[0] + ['.'] + Dotted(labels[1..])
  }

  predicate AllLabels(labels: seq<string>)
  {
    forall i :: 0 <= i < |labels| ==> IsLabel(labels[i])
  }

  /** `local@L1. ... .Lk.T` */
  predicate EmailParts(local: string, labels: seq<string>, tld: string)
  {
    IsLocalPart(local) && |labels| >= 1 && AllLabels(labels) && IsTld(tld)
  }

  function Address(local: string, labels: seq<string>, tld: string): string
  {
    local + ['@'] + Dotted(labels) + tld
  }

  lemma NoDotInLabel(s: string)
    requires IsLabel(s) || IsTld(s)
    ensures forall i :: 0 <= i < |s| ==> s[i] != '.' && s[i] != '@'
  {
  }

  /** Every text the domain matcher accepts is a dotted label list followed by a top-level label. */
  lemma {:induction false} DomainSound(d: string) returns (labels: seq<string>, tld: string)
    requires MatchDomain(d)
    ensures |labels| >= 1 && AllLabels(labels) && IsTld(tld)
    ensures d == Dotted(labels) + tld
    decreases |d|
  {
    var dot := IndexOf(d, '.');
    var rest := d[dot + 1..];
    assert d == d[..dot] + ['.'] + rest;
    if IsTld(rest) {
      labels, tld := [d[..dot]], rest;
      assert Dotted(labels) == d[..dot] + ['.'] + Dotted([]);
    } else {
      var more, t := DomainSound(rest);
      labels, tld := [d[..dot]] + more, t;
      assert labels[1..] == more;
    }
  }

  /** Conversely every dotted label list followed by a top-level label is accepted. */
  lemma {:induction false} DomainComplete(labels: seq<string>, tld: string)
    requires |labels| >= 1 && AllLabels(labels) && IsTld(tld)
    ensures MatchDomain(Dotted(labels) + tld)
    decreases |labels|
  {
    var d := Dotted(labels) + tld;
    var rest := Dotted(labels[1..]) + tld;
    assert d == labels[0] + ['.'] + rest;
    NoDotInLabel(labels[0]);
    IndexOfAfter(labels[0], '.', rest);
    assert d[..|labels[0]|] == labels[0];
    assert d[|labels[0]| + 1..] == rest;
    if |labels| == 1 {
      assert rest == tld;
    } else {
      assert AllLabels(labels[1..]) by {
        forall i | 0 <= i < |labels| - 1 ensures IsLabel(labels[1..][i]) {
          assert labels[1..][i] == labels[i + 1];
        }
      }
      DomainComplete(labels[1..], tld);
    }
  }

  /** Dotted labels and a top-level label never contain an `@`. */
  lemma {:induction false} DomainHasNoAt(labels: seq<string>, tld: string)
    requires AllLabels(labels) && (IsTld(tld) || tld == [])
    ensures forall i :: 0 <= i < |Dotted(labels) + tld| ==> (Dotted(labels) + tld)[i] != '@'
    decreases |labels|
  {
    if labels != [] {
      NoDotInLabel(labels[0]);
      assert AllLabels(labels[1..]) by {
        forall i | 0 <= i < |labels| - 1 ensures IsLabel(labels[1..][i]) {
          assert labels[1..][i] == labels[i + 1];
        }
      }
      DomainHasNoAt(labels[1..], tld);
      assert Dotted(labels) + tld == labels[0] + ['.'] + (Dotted(labels[1..]) + tld);
    }
  }

  /** An accepted address decomposes as `local@L1. ... .T`. */
  lemma ParseEmail(v: string) returns (local: string, labels: seq<string>, tld: string)
    requires IsValidEmail(v)
    ensures EmailParts(local, labels, tld)
    ensures v == Address(local, labels, tld)
  {
    var at := IndexOf(v, '@');
    local := v[..at];
    labels, tld := DomainSound(v[at + 1..]);
    assert v == v[..at] + ['@'] + v[at + 1..];
  }

  /** The text after the first `@`. */
  function DomainOf(v: string): string
  {
    var at := IndexOf(v, '@');
    if at < |v| then v[at + 1..] else []
  }

  lemma AddressSplit(local: string, labels: seq<string>, tld: string)
    requires EmailParts(local, labels, tld)
    ensures IndexOf(Address(local, labels, tld), '@') == |local|
    ensures DomainOf(Address(local, labels, tld)) == Dotted(labels) + tld
  {
    var d := Dotted(labels) + tld;
    var v := Address(local, labels, tld);
    assert v == local + ['@'] + d;
    IndexOfAfter(local, '@', d);
    assert v[|local| + 1..] == d;
  }

  /** Every `local@L1. ... .T` is accepted. With ParseEmail this is the
      if-and-only-if characterisation of the validator. */
  lemma AcceptParts(local: string, labels: seq<string>, tld: string)
    requires EmailParts(local, labels, tld)
    ensures IsValidEmail(Address(local, labels, tld))
  {
    var v := Address(local, labels, tld);
    AddressSplit(local, labels, tld);
    assert v[..|local|] == local;
    DomainComplete(labels, tld);
  }

  /** The text the domain matcher accepts never starts or ends with a dot and
      has no empty label. */
  lemma {:induction false} DomainWellFormed(d: string)
    requires MatchDomain(d)
    ensures |d| >= 4
    ensures d[0] != '.' && d[|d| - 1] != '.'
    ensures forall i :: 0 <= i < |d| - 1 ==> !(d[i] == '.' && d[i + 1] == '.')
    ensures '.' in d
    decreases |d|
  {
    var dot := IndexOf(d, '.');
    var first, rest := d[..dot], d[dot + 1..];
    assert d == first + ['.'] + rest;
    NoDotInLabel(first);
    if IsTld(rest) {
      NoDotInLabel(rest);
    } else {
      DomainWellFormed(rest);
    }
    assert d[|d| - 1] == rest[|rest| - 1];
    forall i | 0 <= i < |d| - 1
      ensures !(d[i] == '.' && d[i + 1] == '.')
    {
      if i < dot - 1 {
        assert d[i] == first[i];
      } else if i == dot - 1 {
        assert d[i] == first[dot - 1];
      } else if i == dot {
        assert d[i + 1] == rest[0];
      } else {
        assert d[i] == rest[i - dot - 1] && d[i + 1] == rest[i - dot];
      }
    }
  }

  /** An accepted address has exactly one `@`. */
  lemma AcceptedHasOneAt(v: string)
    requires IsValidEmail(v)
    ensures Count(v, '@') == 1
  {
    var local, labels, tld := ParseEmail(v);
    DomainHasNoAt(labels, tld);
    var d := Dotted(labels) + tld;
    assert v == local + (['@'] + d);
    CountConcat(local, ['@'] + d, '@');
    CountConcat(['@'], d, '@');
    CountAbsent(local, '@');
    CountAbsent(d, '@');
    assert Count(['@'], '@') == 1 + Count([], '@');
  }

  /** The part after the `@` of an accepted address holds a dot, neither
      starts nor ends with one, and has no `..`. */
  lemma AcceptedDomainShape(v: string)
    requires IsValidEmail(v)
    ensures '.' in DomainOf(v)
    ensures DomainOf(v)[0] != '.' && DomainOf(v)[|DomainOf(v)| - 1] != '.'
    ensures forall i :: 0 <= i < |DomainOf(v)| - 1 ==>
      !(DomainOf(v)[i] == '.' && DomainOf(v)[i + 1] == '.')
  {
    DomainWellFormed(DomainOf(v));
  }

  /** `b@x.com` is accepted. */
  lemma AcceptsExample()
    ensures IsValidEmail("b@x.com")
  {
  }

  /** `b@com` is rejected: the domain has no dot. */
  lemma RejectsNoDot()
    ensures !IsValidEmail("b@com")
  {
  }

  /** `b@x.` is rejected: nothing follows the last dot. */
  lemma RejectsTrailingDot()
    ensures !IsValidEmail("b@x.")
  {
  }

  // ---------------------------------------------------------------------------
  // Enumerations
  // ---------------------------------------------------------------------------

  datatype Difficulty = Easy | Medium | Hard

  datatype Status = Pending | Active | Completed

  function DifficultyName(d: Difficulty): string
  {
    match d
    case Easy => "easy"
    case Medium => "medium"
    case Hard => "hard"
  }

  /** The `difficulty` enum check: only the three listed spellings are accepted. */
  function ParseDifficulty(s: string): (r: Option<Difficulty>)
    ensures r.Some? <==> s == "easy" || s == "medium" || s == "hard"
    ensures r.Some? ==> DifficultyName(r.value) == s
  {
    if s == "easy" then Some(Easy)
    else if s == "medium" then Some(Medium)
    else if s == "hard" then Some(Hard)
    else None
  }

  function StatusName(s: Status): string
  {
    match s
    case Pending => "pending"
    case Active => "active"
    case Completed => "completed"
  }

  /** The `status` enum check. */
  function ParseStatus(s: string): (r: Option<Status>)
    ensures r.Some? <==> s == "pending" || s == "active" || s == "completed"
    ensures r.Some? ==> StatusName(r.value) == s
  {
    if s == "pending" then Some(Pending)
    else if s == "active" then Some(Active)
    else if s == "completed" then Some(Completed)
    else None
  }

  lemma EnumRoundTrips(d: Difficulty, s: Status)
    ensures ParseDifficulty(DifficultyName(d)) == Some(d)
    ensures ParseStatus(StatusName(s)) == Some(s)
  {
  }

  // ---------------------------------------------------------------------------
  // The record and its validation
  // ---------------------------------------------------------------------------

  /** A stored duel; timestamps are clock readings. */
  datatype Duel = Duel(
    challenger: ObjectId,
    opponentEmail: string,
    difficulty: Difficulty,
    questions: seq<string>,
    status: Status,
    winner: Option<ObjectId>,
    createdAt: int,
    updatedAt: int)

  /** What a caller passes to the store's create: the email and difficulty may be absent. */
  datatype DuelInput = DuelInput(
    challenger: ObjectId,
    opponentEmail: Option<string>,
    difficulty: Option<string>,
    questions: seq<string>)

  /** One validator failure per failing path; the required check runs first. */
  datatype FieldError =
    | Required(path: string)
    | NotValidEmail(value: string)
    | NotInEnum(path: string, value: string)

  /** Present and non-empty, as the required check for strings demands. */
  predicate PresentString(v: Option<string>)
  {
    v.Some? && |v.value| > 0
  }

  function EmailErrors(v: Option<string>): seq<FieldError>
  {
    if !PresentString(v) then [Required("opponentEmail")]
    else if !IsValidEmail(v.value) then [NotValidEmail(v.value)]
    else []
  }

  function DifficultyErrors(v: Option<string>): seq<FieldError>
  {
    if !PresentString(v) then [Required("difficulty")]
    else if ParseDifficulty(v.value).None? then [NotInEnum("difficulty", v.value)]
    else []
  }

  /** Builds a record from the input: applies the `status` default, leaves
      `winner` absent and stamps both timestamps, or reports every failing path. */
  function NewDuel(input: DuelInput, now: int): (r: Result<Duel, seq<FieldError>>)
    ensures r.Ok? <==>
      input.opponentEmail.Some? && IsValidEmail(input.opponentEmail.value) &&
      input.difficulty.Some? && ParseDifficulty(input.difficulty.value).Some?
    ensures r.Err? ==> |r.error| >= 1
    ensures r.Ok? ==>
      && r.value.challenger == input.challenger
      && r.value.opponentEmail == input.opponentEmail.value
      && DifficultyName(r.value.difficulty) == input.difficulty.value
      && r.value.questions == input.questions
      && r.value.status == Pending
      && r.value.winner == None
      && r.value.createdAt == now && r.value.updatedAt == now
  {
    var errors := EmailErrors(input.opponentEmail) + DifficultyErrors(input.difficulty);
    if errors == [] then
      Ok(Duel(input.challenger, input.opponentEmail.value,
              ParseDifficulty(input.difficulty.value).value, input.questions,
              Pending, None, now, now))
    else
      Err(errors)
  }
}
