/** The entity families of a classified message: validation of counts, ranges and services, and the
    batch that keeps one agreed value per family (app/conversation/entity_validation.py). */
module Entities {
  import opened Common

  datatype Family =
    | FullName | EventKind | GuestCount | GuestCountRange | EventDate | EstimatedBudget | BudgetDeclined
    | RequestedServices | SpecialRequests

  datatype Json =
    | Null | Bool(b: bool) | Text(s: string) | Int(n: int) | Float(r: real) | NotFinite
    | List(items: seq<Json>) | Dict(fields: map<string, Json>) | Unsupported

  datatype Quality = Provided | Inferred | PendingConfirmation | Corrected | Invalid

  datatype Entity = Entity(family: Family, raw: string, normalized: Json, quality: Quality, needsConfirmation: bool)

  datatype Value =
    | Count(n: int) | Range(low: int, high: int) | Services(codes: seq<string>) | Flag(b: bool) | Amount(cents: int)
    | Date(day: Option<int>, month: Option<int>, kind: nat, raw: string) | Words(s: string)

  datatype Code =
    | InvalidIntegerType | InvalidIntegerFormat | IntegerOverflow | IntegerOutOfRange | InvalidRangeShape
    | RangeInverted | InvalidServicesShape | InvalidServiceObject | NoSupportedService | UnsupportedServiceItem
    | InvalidTextType
    | UnrepresentableText | RequiredValueMissing | SourceInvalid | EntityNeedsConfirmation
    | ConflictingRepresentations | ConflictingGuests | ConflictingBudget | InvalidDeclinedType | OtherCode(id: nat)

  datatype Result<T> = Ok(value: T) | Err(code: Code)

  /** What the validators take from elsewhere: white space, upper-casing, the service catalogue with its
      phrase matcher, and the validators of the families not detailed here. */
  datatype Env = Env(
    isSpace: char -> bool, upper: string -> string, catalogue: set<string>, matching: string -> seq<string>,
    others: Entity -> Result<Value>)

  /** Catalogue codes are upper-case words, and only they are matched. */
  ghost predicate EnvOk(env: Env) {
    && (forall c | c in env.catalogue :: c != "" && env.upper(c) == c && Strip(c, env.isSpace) == c && '\0' !in c)
    && (forall text, c :: c in env.matching(text) ==> c in env.catalogue)
    && (forall d | '0' <= d <= '9' :: !env.isSpace(d)) && !env.isSpace('+')
  }

  // ----- Text and integers -----

  function StripLeft(s: string, isSpace: char -> bool): string {
    if s != "" && isSpace(s[0]) then StripLeft(s[1..], isSpace) else s
  }

  function StripRight(s: string, isSpace: char -> bool): string {
    if s != "" && isSpace(s[|s|-1]) then StripRight(s[..|s|-1], isSpace) else s
  }

  function Strip(s: string, isSpace: char -> bool): string {
    StripRight(StripLeft(s, isSpace), isSpace)
  }

  predicate AllDigits(s: string) {
    forall i | 0 <= i < |s| :: '0' <= s[i] <= '9'
  }

  /** The number a digit string denotes. */
  function Digits(s: string): nat
    requires AllDigits(s)
  {
    if s == "" then 0 else 10 * Digits(s[..|s|-1]) + (s[|s|-1] as int - '0' as int)
  }

  function DropZeros(s: string): string {
    if s != "" && s[0] == '0' then DropZeros(s[1..]) else s
  }

  /** The digits after an optional plus sign. */
  function Unsigned(s: string): string {
    if s != "" && s[0] == '+' then s[1..] else s
  }

  const MaxInteger: int := 2147483647

  function InRange(n: int): Result<int> {
    if 0 < n <= MaxInteger then Ok(n) else Err(IntegerOutOfRange)
  }

  lemma DropZerosDigits(s: string)
    requires AllDigits(s)
    ensures AllDigits(DropZeros(s))
  {
    if s != "" && s[0] == '0' { DropZerosDigits(s[1..]); }
  }

  /** integer_value */
  function IntegerValue(v: Json, isSpace: char -> bool): Result<int> {
    match v
    case Text(s) =>
      var digits := Unsigned(Strip(s, isSpace));
      if digits == "" || !AllDigits(digits) then Err(InvalidIntegerFormat)
      else
        DropZerosDigits(digits);
        if |DropZeros(digits)| > 10 then Err(IntegerOverflow) else InRange(Digits(DropZeros(digits)))
    case Float(r) => if r.Floor as real != r then Err(InvalidIntegerFormat) else InRange(r.Floor)
    case NotFinite => Err(InvalidIntegerFormat)
    case Int(n) => InRange(n)
    case _ => Err(InvalidIntegerType)
  }

  function Pow10(k: nat): nat {
    if k == 0 then 1 else 10 * Pow10(k - 1)
  }

  lemma {:induction false} DigitsBounds(s: string)
    requires AllDigits(s)
    ensures Digits(s) < Pow10(|s|)
    ensures s != "" && s[0] != '0' ==> Digits(s) >= Pow10(|s| - 1)
  {
    if s != "" {
      var front := s[..|s|-1];
      DigitsBounds(front);
      if front != "" { assert front[0] == s[0]; }
    }
  }

  lemma {:induction false} ZerosAddNothing(s: string)
    requires AllDigits(s)
    ensures AllDigits(DropZeros(s)) && Digits(DropZeros(s)) == Digits(s)
    ensures DropZeros(s) != "" ==> DropZeros(s)[0] != '0'
  {
    if s != "" && s[0] == '0' {
      ZerosAddNothing(s[1..]);
      LeadingZero(s);
    }
  }

  lemma {:induction false} LeadingZero(s: string)
    requires AllDigits(s) && s != "" && s[0] == '0'
    ensures Digits(s) == Digits(s[1..])
  {
    if |s| > 1 {
      LeadingZero(s[..|s|-1]);
      assert s[1..][..|s|-2] == s[..|s|-1][1..];
    } else {
      assert s[1..] == "" && s[..0] == "";
    }
  }

  lemma Ten()
    ensures Pow10(10) == 10000000000
  {
    assert Pow10(5) == 100000;
  }

  /** Accepted text is an optional plus sign and decimal digits that denote a number from 1 to 2^31 - 1;
      neither leading zeros nor the ten-digit guard exclude any such number. */
  lemma IntegerTextIff(s: string, isSpace: char -> bool, n: int)
    ensures var digits := Unsigned(Strip(s, isSpace));
            IntegerValue(Text(s), isSpace) == Ok(n) <==>
              digits != "" && AllDigits(digits) && Digits(digits) == n && 0 < n <= MaxInteger
  {
    var digits := Unsigned(Strip(s, isSpace));
    if AllDigits(digits) {
      ZerosAddNothing(digits);
      var rest := DropZeros(digits);
      if |rest| > 10 {
        DigitsBounds(rest);
        Ten();
        PowGrows(10, |rest| - 1);
      }
    }
  }

  lemma {:induction false} PowGrows(j: nat, k: nat)
    requires j <= k
    ensures Pow10(j) <= Pow10(k)
  {
    if j < k { PowGrows(j, k - 1); }
  }

  function TextValue(v: Json, isSpace: char -> bool): Result<string> {
    if !v.Text? then Err(InvalidTextType)
    else if '\0' in v.s then Err(UnrepresentableText)
    else if Strip(v.s, isSpace) == "" then Err(RequiredValueMissing)
    else Ok(Strip(v.s, isSpace))
  }

  // ----- Services -----

  function AddNew(codes: seq<string>, more: seq<string>): seq<string>
    decreases |more|
  {
    if more == [] then codes
    else AddNew(if more[0] in codes then codes else codes + [more[0]], more[1..])
  }

  function ServiceText(item: Json): Result<Json> {
    if !item.Dict? then Ok(item)
    else if item.fields.Keys != {"service_code", "status"} || item.fields["status"] != Text("REQUESTED")
    then Err(InvalidServiceObject)
    else Ok(item.fields["service_code"])
  }

  function CodesFor(env: Env, text: string): seq<string> {
    if env.upper(text) in env.catalogue then [env.upper(text)] else env.matching(text)
  }

  function CollectCodes(env: Env, items: seq<Json>, codes: seq<string>): Result<seq<string>> {
    if items == [] then Ok(codes)
    else
      match ServiceText(items[0])
      case Err(code) => Err(code)
      case Ok(item) =>
        match TextValue(item, env.isSpace)
        case Err(code) => Err(code)
        case Ok(text) => CollectCodes(env, items[1..], AddNew(codes, CodesFor(env, text)))
  }

  /** The items a services value consists of. */
  function Shaped(v: Json, raw: string): Json {
    if v.Text? then List([v]) else if v.Null? then List([Text(raw)]) else v
  }

  function ServicesValue(env: Env, v: Json, raw: string): Result<Value> {
    var shaped := Shaped(v, raw);
    if !shaped.List? || shaped.items == [] then Err(InvalidServicesShape)
    else
      match CollectCodes(env, shaped.items, [])
      case Err(code) => Err(code)
      case Ok(codes) => if codes == [] then Err(NoSupportedService) else Ok(Services(codes))
  }

  function RangeValue(v: Json, isSpace: char -> bool): Result<Value> {
    if !v.Dict? || v.fields.Keys != {"min", "max"} then Err(InvalidRangeShape)
    else
      match (IntegerValue(v.fields["min"], isSpace), IntegerValue(v.fields["max"], isSpace))
      case (Err(code), _) => Err(code)
      case (Ok(_), Err(code)) => Err(code)
      case (Ok(low), Ok(high)) => if low > high then Err(RangeInverted) else Ok(Range(low, high))
  }

  // ----- One entity -----

  function FamilyValue(env: Env, e: Entity): Result<Value> {
    match e.family
    case GuestCount =>
      (match IntegerValue(if e.normalized.Null? then Text(e.raw) else e.normalized, env.isSpace)
       case Ok(n) => Ok(Count(n))
       case Err(code) => Err(code))
    case GuestCountRange => RangeValue(e.normalized, env.isSpace)
    case RequestedServices => ServicesValue(env, e.normalized, e.raw)
    case BudgetDeclined => if e.normalized.Bool? then Ok(Flag(e.normalized.b)) else Err(InvalidDeclinedType)
    case _ => env.others(e)
  }

  /** validate_entity */
  function Validate(env: Env, e: Entity): Result<Value> {
    if '\0' in e.raw then Err(UnrepresentableText)
    else if e.quality == Invalid then Err(SourceInvalid)
    else
      match FamilyValue(env, e)
      case Err(code) => Err(code)
      case Ok(value) =>
        if e.family != FullName && (e.needsConfirmation || e.quality == Inferred || e.quality == PendingConfirmation)
        then Err(EntityNeedsConfirmation) else Ok(value)
  }

  /** How many items name no service of the catalogue: each is a warning, and blocks nothing. */
  function Unmatched(env: Env, items: seq<Json>): nat {
    if items == [] then 0
    else
      var front := Unmatched(env, items[..|items|-1]);
      match ServiceText(items[|items|-1])
      case Err(_) => front
      case Ok(item) =>
        match TextValue(item, env.isSpace)
        case Err(_) => front
        case Ok(text) => front + (if CodesFor(env, text) == [] then 1 else 0)
  }

  function Warnings(env: Env, e: Entity): nat {
    if e.family == RequestedServices && Validate(env, e).Ok? && Shaped(e.normalized, e.raw).List?
    then Unmatched(env, Shaped(e.normalized, e.raw).items) else 0
  }

  datatype Accepted = Accepted(entity: Entity, value: Value)

  /** canonical, for the three families */
  function Canonical(a: Accepted): Entity {
    match a.value
    case Count(n) => a.entity.(normalized := Int(n))
    case Range(low, high) => a.entity.(normalized := Dict(map["min" := Int(low), "max" := Int(high)]))
    case Services(codes) => a.entity.(normalized := List(Texts(codes)))
    case _ => a.entity
  }

  function Texts(codes: seq<string>): seq<Json> {
    seq(|codes|, i requires 0 <= i < |codes| => Text(codes[i]))
  }

  predicate Distinct<T(==)>(s: seq<T>) {
    forall i, j | 0 <= i < j < |s| :: s[i] != s[j]
  }

  lemma {:induction false} AddNewKeeps(codes: seq<string>, more: seq<string>, catalogue: set<string>)
    requires Distinct(codes) && (forall c | c in codes :: c in catalogue) && (forall c | c in more :: c in catalogue)
    ensures Distinct(AddNew(codes, more)) && forall c | c in AddNew(codes, more) :: c in catalogue
    decreases |more|
  {
    if more != [] {
      assert more[0] in more;
      AddNewKeeps(if more[0] in codes then codes else codes + [more[0]], more[1..], catalogue);
    }
  }

  lemma {:induction false} CollectedCodes(env: Env, items: seq<Json>, codes: seq<string>)
    requires EnvOk(env) && Distinct(codes) && (forall c | c in codes :: c in env.catalogue)
    requires CollectCodes(env, items, codes).Ok?
    ensures var r := CollectCodes(env, items, codes).value; Distinct(r) && forall c | c in r :: c in env.catalogue
    decreases |items|
  {
    if items != [] {
      var text := TextValue(ServiceText(items[0]).value, env.isSpace).value;
      AddNewKeeps(codes, CodesFor(env, text), env.catalogue);
      CollectedCodes(env, items[1..], AddNew(codes, CodesFor(env, text)));
    }
  }

  lemma {:induction false} CollectAgain(env: Env, codes: seq<string>, n: nat)
    requires EnvOk(env) && Distinct(codes) && (forall c | c in codes :: c in env.catalogue) && n <= |codes|
    ensures CollectCodes(env, Texts(codes[n..]), codes[..n]) == Ok(codes)
    decreases |codes| - n
  {
    if n == |codes| {
      assert codes[..n] == codes && codes[n..] == [];
    } else {
      var c := codes[n];
      assert c in codes && c !in codes[..n];
      assert TextValue(Text(c), env.isSpace) == Ok(c) && CodesFor(env, c) == [c];
      assert AddNew(codes[..n] + [c], []) == codes[..n] + [c];
      assert AddNew(codes[..n], [c]) == codes[..n] + [c] == codes[..n+1];
      assert Texts(codes[n..])[0] == Text(c) && Texts(codes[n..])[1..] == Texts(codes[n+1..]);
      CollectAgain(env, codes, n + 1);
    }
  }

  /** Revalidating the canonical form of an accepted count, range or service list gives its value. */
  lemma CanonicalRoundTrip(env: Env, e: Entity)
    requires EnvOk(env) && Validate(env, e).Ok?
    requires e.family == GuestCount || e.family == GuestCountRange || e.family == RequestedServices
    ensures Validate(env, Canonical(Accepted(e, Validate(env, e).value))) == Validate(env, e)
  {
    match e.family
    case RequestedServices => ServicesAgain(env, e.normalized, e.raw);
    case _ =>
  }

  lemma ServicesAgain(env: Env, v: Json, raw: string)
    requires EnvOk(env) && ServicesValue(env, v, raw).Ok?
    ensures ServicesValue(env, v, raw).value.Services?
    ensures ServicesValue(env, List(Texts(ServicesValue(env, v, raw).value.codes)), raw) == ServicesValue(env, v, raw)
  {
    var shaped := Shaped(v, raw);
    CollectedCodes(env, shaped.items, []);
    var codes := CollectCodes(env, shaped.items, []).value;
    CollectAgain(env, codes, 0);
    assert codes[0..] == codes && codes[..0] == [];
  }

  // ----- What is accepted -----

  /** Of other values exactly the whole numbers in that range are accepted, written with a fraction or not. */
  lemma IntegerNumberIff(v: Json, isSpace: char -> bool, n: int)
    requires !v.Text?
    ensures IntegerValue(v, isSpace) == Ok(n) <==>
              0 < n <= 2147483647 && (v == Int(n) || (v.Float? && v.r == n as real))
  {
  }

  /** A range is two accepted integers in order, under these two names and nothing else. */
  lemma RangeIff(v: Json, isSpace: char -> bool, low: int, high: int)
    ensures RangeValue(v, isSpace) == Ok(Range(low, high)) <==>
              && v.Dict? && v.fields.Keys == {"min", "max"} && low <= high
              && IntegerValue(v.fields["min"], isSpace) == Ok(low) && IntegerValue(v.fields["max"], isSpace) == Ok(high)
    ensures RangeValue(v, isSpace).Ok? ==> RangeValue(v, isSpace).value.Range?
  {
  }

  /** An entity is accepted when its text is representable, its source stands by it, its value is valid, and it
      is confirmed; a full name needs no confirmation. */
  lemma AcceptedIff(env: Env, e: Entity)
    ensures Validate(env, e).Ok? <==>
              && '\0' !in e.raw && e.quality != Invalid && FamilyValue(env, e).Ok?
              && (e.family == FullName || (!e.needsConfirmation && (e.quality == Provided || e.quality == Corrected)))
    ensures Validate(env, e).Ok? ==> Validate(env, e).value == FamilyValue(env, e).value
  {
  }

  /** The text of an item: a plain text, or the code of a request. */
  predicate ReadsAs(env: Env, item: Json, text: string) {
    || (item.Text? && '\0' !in item.s && text == Strip(item.s, env.isSpace) != "")
    || (item.Dict? && item.fields.Keys == {"service_code", "status"} && item.fields["status"] == Text("REQUESTED")
        && item.fields["service_code"].Text? && '\0' !in item.fields["service_code"].s
        && text == Strip(item.fields["service_code"].s, env.isSpace) != "")
  }

  /** The item asks for the service: it is the code, in any letter case, or else the matcher finds it. */
  predicate AsksFor(env: Env, item: Json, code: string) {
    var text := ItemText(env, item);
    ReadsAs(env, item, text)
    && (if env.upper(text) in env.catalogue then code == env.upper(text) else code in env.matching(text))
  }

  function ItemText(env: Env, item: Json): string {
    if item.Text? then Strip(item.s, env.isSpace)
    else if item.Dict? && "service_code" in item.fields && item.fields["service_code"].Text?
    then Strip(item.fields["service_code"].s, env.isSpace) else ""
  }

  lemma {:induction false} CollectedIff(env: Env, items: seq<Json>, codes: seq<string>)
    requires Distinct(codes)
    ensures CollectCodes(env, items, codes).Ok? <==> forall i | 0 <= i < |items| :: ReadsAs(env, items[i], ItemText(env, items[i]))
    ensures CollectCodes(env, items, codes).Ok? ==>
              var r := CollectCodes(env, items, codes).value;
              && codes <= r && Distinct(r)
              && forall c :: c in r <==> c in codes || exists i | 0 <= i < |items| :: AsksFor(env, items[i], c)
    decreases |items|
  {
    if items != [] {
      var text := ItemText(env, items[0]);
      OneItem(env, items[0]);
      if ReadsAs(env, items[0], text) {
        var more := AddNew(codes, CodesFor(env, text));
        AddedIff(codes, CodesFor(env, text));
        CollectedIff(env, items[1..], more);
        ShiftItems(env, items);
      }
    }
  }

  lemma ShiftItems(env: Env, items: seq<Json>)
    requires items != []
    ensures forall c :: (exists i | 0 <= i < |items| :: AsksFor(env, items[i], c)) <==>
              AsksFor(env, items[0], c) || exists i | 0 <= i < |items| - 1 :: AsksFor(env, items[1..][i], c)
  {
    forall c
      ensures (exists i | 0 <= i < |items| :: AsksFor(env, items[i], c)) <==>
                AsksFor(env, items[0], c) || exists i | 0 <= i < |items| - 1 :: AsksFor(env, items[1..][i], c)
    {
      if i :| 0 < i < |items| && AsksFor(env, items[i], c) { assert AsksFor(env, items[1..][i-1], c); }
      if i :| 0 <= i < |items| - 1 && AsksFor(env, items[1..][i], c) { assert AsksFor(env, items[i+1], c); }
    }
  }

  lemma OneItem(env: Env, item: Json)
    ensures ServiceText(item).Ok? && TextValue(ServiceText(item).value, env.isSpace).Ok? <==>
              ReadsAs(env, item, ItemText(env, item))
    ensures ReadsAs(env, item, ItemText(env, item)) ==>
              && TextValue(ServiceText(item).value, env.isSpace) == Ok(ItemText(env, item))
              && forall c :: AsksFor(env, item, c) <==> c in CodesFor(env, ItemText(env, item))
  {
  }

  lemma {:induction false} AddedIff(codes: seq<string>, more: seq<string>)
    requires Distinct(codes)
    ensures codes <= AddNew(codes, more) && Distinct(AddNew(codes, more))
    ensures forall c :: c in AddNew(codes, more) <==> c in codes || c in more
    decreases |more|
  {
    if more != [] {
      AddedIff(if more[0] in codes then codes else codes + [more[0]], more[1..]);
      assert more == [more[0]] + more[1..];
    }
  }

  /** A list of services is accepted when every item is a text or a request and some item asks for a service;
      then it names, once each, exactly the services that are asked for, those of earlier items first. */
  lemma ServicesIff(env: Env, items: seq<Json>, raw: string)
    ensures ServicesValue(env, List(items), raw).Ok? <==>
              && (forall i | 0 <= i < |items| :: ReadsAs(env, items[i], ItemText(env, items[i])))
              && exists c, i | 0 <= i < |items| :: AsksFor(env, items[i], c)
    ensures ServicesValue(env, List(items), raw).Ok? ==>
              && ServicesValue(env, List(items), raw).value.Services?
              && var codes := ServicesValue(env, List(items), raw).value.codes;
              && Distinct(codes)
              && (forall c :: c in codes <==> exists i | 0 <= i < |items| :: AsksFor(env, items[i], c))
              && forall n | 0 < n < |items| && ServicesValue(env, List(items[..n]), raw).Ok? ::
                   ServicesValue(env, List(items[..n]), raw).value.codes <= codes
  {
    CollectedIff(env, items, []);
    if items != [] && CollectCodes(env, items, []).Ok? {
      var codes := CollectCodes(env, items, []).value;
      if codes != [] {
        assert codes[0] in codes;
        var i :| 0 <= i < |items| && AsksFor(env, items[i], codes[0]);
      }
      if c, i :| 0 <= i < |items| && AsksFor(env, items[i], c) { assert c in codes; }
      forall n | 0 < n < |items| && ServicesValue(env, List(items[..n]), raw).Ok?
        ensures ServicesValue(env, List(items[..n]), raw).value.codes <= codes
      {
        CollectInParts(env, items, [], n);
        CollectedIff(env, items[..n], []);
        CollectedIff(env, items[n..], CollectCodes(env, items[..n], []).value);
      }
    }
  }

  lemma {:induction false} CollectInParts(env: Env, items: seq<Json>, codes: seq<string>, n: nat)
    requires n <= |items| && CollectCodes(env, items[..n], codes).Ok?
    ensures CollectCodes(env, items, codes) == CollectCodes(env, items[n..], CollectCodes(env, items[..n], codes).value)
    decreases n
  {
    if n > 0 {
      var text := TextValue(ServiceText(items[..n][0]).value, env.isSpace).value;
      assert items[..n][1..] == items[1..][..n-1] && items[1..][n-1..] == items[n..];
      CollectInParts(env, items[1..], AddNew(codes, CodesFor(env, text)), n - 1);
    }
  }
}
