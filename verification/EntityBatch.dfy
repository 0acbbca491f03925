/** validate_entities of app/conversation/entity_validation.py: one agreed value per family, or none. */
module EntityBatch {
  import opened Common
  import opened Entities

  /** `family` is None for an envelope that could not be attributed (UNKNOWN). */
  datatype Rejection = Rejection(family: Option<Family>, code: Code)

  datatype Batch = Batch(accepted: seq<Accepted>, rejected: seq<Rejection>)

  /** Two dates agree when they differ only in the words they were given in. */
  function Comparable(v: Value): Value {
    if v.Date? then v.(raw := "") else v
  }

  predicate Agrees(a: Accepted, e: Entity, v: Value) {
    Comparable(a.value) == Comparable(v) && a.entity.needsConfirmation == e.needsConfirmation
  }

  // ----- What the batch says about a family -----

  /** The first representation of a family that validates. */
  function First(env: Env, es: seq<Entity>, f: Family): Option<Accepted> {
    if es == [] then None
    else
      var front, last := First(env, es[..|es|-1], f), es[|es|-1];
      if front.Some? then front
      else if last.family == f && Validate(env, last).Ok? then Some(Accepted(last, Validate(env, last).value))
      else None
  }

  /** Where that is; the end when there is none. */
  function FirstAt(env: Env, es: seq<Entity>, f: Family): nat {
    if es == [] then 0
    else if First(env, es[..|es|-1], f).Some? then FirstAt(env, es[..|es|-1], f)
    else if First(env, es, f).Some? then |es| - 1
    else |es|
  }

  /** Every representation of the family validates and agrees with the first. */
  predicate Unanimous(env: Env, es: seq<Entity>, f: Family) {
    forall e | e in es && e.family == f ::
      Validate(env, e).Ok? && First(env, es, f).Some? && Agrees(First(env, es, f).value, e, Validate(env, e).value)
  }

  predicate Named(rejected: seq<Rejection>, f: Family) {
    exists r | r in rejected :: r.family == Some(f)
  }

  /** Both guest families have a value. */
  predicate TwoGuests(env: Env, es: seq<Entity>) {
    First(env, es, GuestCount).Some? && First(env, es, GuestCountRange).Some?
  }

  predicate GuestsAgree(env: Env, es: seq<Entity>)
    requires TwoGuests(env, es)
  {
    var n := First(env, es, GuestCount).value.value;
    n.Count? && First(env, es, GuestCountRange).value.value == Range(n.n, n.n)
  }

  predicate BudgetAndDeclined(env: Env, es: seq<Entity>) {
    && First(env, es, EstimatedBudget).Some? && First(env, es, BudgetDeclined).Some?
    && First(env, es, BudgetDeclined).value.value == Flag(true)
  }

  /** The families whose value is accepted. */
  predicate Survives(env: Env, es: seq<Entity>, undecoded: seq<Rejection>, f: Family) {
    && First(env, es, f).Some? && Unanimous(env, es, f) && !Named(undecoded, f)
    && (f == GuestCount && TwoGuests(env, es) ==> GuestsAgree(env, es))
    && (f == GuestCountRange ==> !TwoGuests(env, es))
    && (f == EstimatedBudget || f == BudgetDeclined ==> !BudgetAndDeclined(env, es))
  }

  // ----- The fold -----

  predicate OrderedBy(order: seq<Family>, byName: map<Family, Accepted>) {
    Distinct(order) && forall f :: f in order <==> f in byName
  }

  /** What the loop has found after a prefix. */
  ghost predicate Folded(env: Env, es: seq<Entity>, undecoded: seq<Rejection>, order: seq<Family>,
                         byName: map<Family, Accepted>, blocked: set<Family>, rejected: seq<Rejection>) {
    && OrderedBy(order, byName)
    && (forall i, j | 0 <= i < j < |order| :: FirstAt(env, es, order[i]) < FirstAt(env, es, order[j]))
    && (forall f :: (f in byName <==> First(env, es, f).Some?) && (f in byName ==> First(env, es, f) == Some(byName[f])))
    && (forall f :: f in blocked <==> Named(undecoded, f) || Contested(env, es, f))
    && rejected == undecoded + Rejections(env, es)
  }

  /** What one representation adds to the rejections: its failure, or its warnings and its disagreement. */
  function RejectionsFor(env: Env, before: seq<Entity>, e: Entity): seq<Rejection> {
    match Validate(env, e)
    case Err(code) => [Rejection(Some(e.family), code)]
    case Ok(value) =>
      seq(Warnings(env, e), _ => Rejection(Some(e.family), UnsupportedServiceItem))
      + if First(env, before, e.family).Some? && !Agrees(First(env, before, e.family).value, e, value)
        then [Rejection(Some(e.family), ConflictingRepresentations)] else []
  }

  function Rejections(env: Env, es: seq<Entity>): seq<Rejection> {
    if es == [] then []
    else Rejections(env, es[..|es|-1]) + RejectionsFor(env, es[..|es|-1], es[|es|-1])
  }

  /** The rejections of two families against each other. */
  function CrossRejections(env: Env, es: seq<Entity>): seq<Rejection> {
    (if TwoGuests(env, es) && !GuestsAgree(env, es) then [Rejection(Some(GuestCount), ConflictingGuests)] else [])
    + (if BudgetAndDeclined(env, es) then [Rejection(Some(EstimatedBudget), ConflictingBudget)] else [])
  }

  /** Some representation fails, or disagrees with the first that validated. */
  predicate Contested(env: Env, es: seq<Entity>, f: Family) {
    exists e | e in es :: e.family == f && Objects(env, es, e)
  }

  predicate Objects(env: Env, es: seq<Entity>, e: Entity) {
    || Validate(env, e).Err?
    || (First(env, es, e.family).Some? && !Agrees(First(env, es, e.family).value, e, Validate(env, e).value))
  }

  lemma {:induction false} FirstExists(env: Env, es: seq<Entity>, f: Family)
    ensures First(env, es, f).None? <==> forall e | e in es && e.family == f :: Validate(env, e).Err?
    ensures First(env, es, f).Some? ==>
              var a := First(env, es, f).value;
              a.entity in es && a.entity.family == f && Validate(env, a.entity) == Ok(a.value)
  {
    if es != [] {
      FirstExists(env, es[..|es|-1], f);
      assert es == es[..|es|-1] + [es[|es|-1]];
    }
  }

  function FirstAfter(env: Env, es: seq<Entity>, e: Entity, f: Family): Option<Accepted> {
    if First(env, es, f).Some? then First(env, es, f)
    else if e.family == f && Validate(env, e).Ok? then Some(Accepted(e, Validate(env, e).value))
    else None
  }

  /** The new representation fails, or disagrees with the first of its family. */
  predicate NewlyContested(env: Env, es: seq<Entity>, e: Entity, f: Family) {
    e.family == f && (Validate(env, e).Err? ||
                      (First(env, es, f).Some? && !Agrees(First(env, es, f).value, e, Validate(env, e).value)))
  }

  lemma FirstStep(env: Env, es: seq<Entity>, e: Entity, f: Family)
    ensures First(env, es + [e], f) == FirstAfter(env, es, e, f)
  {
    assert (es + [e])[..|es|] == es;
  }

  lemma ContestedStep(env: Env, es: seq<Entity>, e: Entity, f: Family)
    ensures Contested(env, es + [e], f) <==> Contested(env, es, f) || NewlyContested(env, es, e, f)
  {
    var more := es + [e];
    FirstStep(env, es, e, f);
    FirstExists(env, es, f);
    forall x | x in es && x.family == f ensures Objects(env, more, x) <==> Objects(env, es, x) { }
    if Contested(env, more, f) {
      var x :| x in more && x.family == f && Objects(env, more, x);
    }
    if Contested(env, es, f) {
      var x :| x in es && x.family == f && Objects(env, es, x);
      assert x in more;
    }
    if e.family == f && Objects(env, more, e) { assert e in more; }
  }

  /** One more representation, for all families at once. */
  lemma AllSteps(env: Env, es: seq<Entity>, e: Entity)
    ensures forall f :: First(env, es + [e], f) == FirstAfter(env, es, e, f)
    ensures forall f :: Contested(env, es + [e], f) <==> Contested(env, es, f) || NewlyContested(env, es, e, f)
  {
    forall f ensures First(env, es + [e], f) == FirstAfter(env, es, e, f) { FirstStep(env, es, e, f); }
    forall f ensures Contested(env, es + [e], f) <==> Contested(env, es, f) || NewlyContested(env, es, e, f) {
      ContestedStep(env, es, e, f);
    }
  }

  lemma UnanimousIff(env: Env, es: seq<Entity>, f: Family)
    ensures Unanimous(env, es, f) <==> !Contested(env, es, f)
  {
    FirstExists(env, es, f);
  }

  /** One family comes before the other. */
  predicate InTurn(order: seq<Family>, f: Family, g: Family) {
    exists p, q | 0 <= p < q < |order| :: order[p] == f && order[q] == g
  }

  lemma {:induction false} FirstAtBound(env: Env, es: seq<Entity>, f: Family)
    ensures FirstAt(env, es, f) <= |es| && (First(env, es, f).Some? ==> FirstAt(env, es, f) < |es|)
  {
    if es != [] { FirstAtBound(env, es[..|es|-1], f); }
  }

  lemma FirstAtStep(env: Env, more: seq<Entity>, f: Family)
    requires more != []
    ensures var es := more[..|more|-1];
            && (First(env, es, f).Some? ==> FirstAt(env, more, f) == FirstAt(env, es, f) < |es|)
            && (First(env, es, f).None? && First(env, more, f).Some? ==> FirstAt(env, more, f) == |es|)
  {
    FirstAtBound(env, more[..|more|-1], f);
  }

  /** The entries that are not blocked, in the order their families first appeared. */
  method Collect(order: seq<Family>, byName: map<Family, Accepted>, blocked: set<Family>)
    returns (accepted: seq<Accepted>)
    requires Distinct(order) && forall f | f in byName :: byName[f].entity.family == f && f in order
    ensures forall a :: a in accepted <==>
              a.entity.family in byName && byName[a.entity.family] == a && a.entity.family !in blocked
    ensures forall i, j | 0 <= i < j < |accepted| :: accepted[i].entity.family != accepted[j].entity.family
    ensures forall i, j | 0 <= i < j < |accepted| ::
              InTurn(order, accepted[i].entity.family, accepted[j].entity.family)
  {
    accepted := [];
    for i := 0 to |order|
      invariant forall k, j | 0 <= k < j < |accepted| ::
                  InTurn(order, accepted[k].entity.family, accepted[j].entity.family)
      invariant forall a :: a in accepted <==> a.entity.family in order[..i] && a.entity.family in byName
                                               && byName[a.entity.family] == a && a.entity.family !in blocked
      invariant forall k, j | 0 <= k < j < |accepted| :: accepted[k].entity.family != accepted[j].entity.family
    {
      var f := order[i];
      assert order[..i+1] == order[..i] + [f] && f !in order[..i];
      if f in byName && f !in blocked {
        forall k | 0 <= k < |accepted|
          ensures accepted[k].entity.family != f && InTurn(order, accepted[k].entity.family, f)
        {
          assert accepted[k] in accepted;
          var p :| 0 <= p < i && order[..i][p] == accepted[k].entity.family;
          assert order[p] == accepted[k].entity.family && order[i] == f;
        }
        accepted := accepted + [byName[f]];
      }
    }
    assert order[..|order|] == order;
  }

  /** One more entity folded in. */
  method FoldIn(env: Env, e: Entity, order0: seq<Family>, byName0: map<Family, Accepted>, blocked0: set<Family>,
                rejected0: seq<Rejection>, ghost es: seq<Entity>, ghost undecoded: seq<Rejection>)
    returns (order: seq<Family>, byName: map<Family, Accepted>, blocked: set<Family>, rejected: seq<Rejection>)
    requires Folded(env, es, undecoded, order0, byName0, blocked0, rejected0)
    ensures Folded(env, es + [e], undecoded, order, byName, blocked, rejected)
  {
    order, byName, blocked, rejected := order0, byName0, blocked0, rejected0;
    AllSteps(env, es, e);
    forall f
      ensures First(env, es, f).Some? ==> FirstAt(env, es + [e], f) == FirstAt(env, es, f) < |es|
      ensures First(env, es, f).None? && First(env, es + [e], f).Some? ==> FirstAt(env, es + [e], f) == |es|
    {
      FirstAtStep(env, es + [e], f);
    }
    forall i | 0 <= i < |order0| ensures First(env, es, order0[i]).Some? { assert order0[i] in order0; }
    assert (es + [e])[..|es|] == es;
    var result := Validate(env, e);
    if result.Err? {
      rejected := rejected + [Rejection(Some(e.family), result.code)];
      blocked := blocked + {e.family};
      return;
    }
    rejected := rejected + seq(Warnings(env, e), _ => Rejection(Some(e.family), UnsupportedServiceItem));
    if e.family in byName {
      if !Agrees(byName[e.family], e, result.value) {
        rejected := rejected + [Rejection(Some(e.family), ConflictingRepresentations)];
        blocked := blocked + {e.family};
      }
    } else {
      byName := byName[e.family := Accepted(e, result.value)];
      order := order + [e.family];
    }
  }

  /** The two conflicts between families. */
  method SettleConflicts(byName0: map<Family, Accepted>, blocked0: set<Family>, rejected0: seq<Rejection>)
    returns (byName: map<Family, Accepted>, blocked: set<Family>, rejected: seq<Rejection>)
    ensures rejected == rejected0
              + (if BothGuests(byName0) && !SameGuests(byName0)
                 then [Rejection(Some(GuestCount), ConflictingGuests)] else [])
              + (if BudgetDeclinedToo(byName0) then [Rejection(Some(EstimatedBudget), ConflictingBudget)] else [])
    ensures Settled(byName0, blocked0, byName, blocked)
  {
    byName, blocked, rejected := byName0, blocked0, rejected0;
    if GuestCount in byName && GuestCountRange in byName {
      var n := byName[GuestCount].value;
      if n.Count? && byName[GuestCountRange].value == Range(n.n, n.n) {
        byName := byName - {GuestCountRange};
      } else {
        rejected := rejected + [Rejection(Some(GuestCount), ConflictingGuests)];
        blocked := blocked + {GuestCount, GuestCountRange};
      }
    }
    if EstimatedBudget in byName && BudgetDeclined in byName && byName[BudgetDeclined].value == Flag(true) {
      rejected := rejected + [Rejection(Some(EstimatedBudget), ConflictingBudget)];
      blocked := blocked + {EstimatedBudget, BudgetDeclined};
    }
  }

  predicate BothGuests(byName: map<Family, Accepted>) {
    GuestCount in byName && GuestCountRange in byName
  }

  predicate SameGuests(byName: map<Family, Accepted>)
    requires BothGuests(byName)
  {
    byName[GuestCount].value.Count?
    && byName[GuestCountRange].value == Range(byName[GuestCount].value.n, byName[GuestCount].value.n)
  }

  predicate BudgetDeclinedToo(byName: map<Family, Accepted>) {
    EstimatedBudget in byName && BudgetDeclined in byName && byName[BudgetDeclined].value == Flag(true)
  }

  predicate Settled(byName0: map<Family, Accepted>, blocked0: set<Family>, byName: map<Family, Accepted>,
                    blocked: set<Family>) {
    && byName == (if BothGuests(byName0) && SameGuests(byName0) then byName0 - {GuestCountRange} else byName0)
    && blocked == blocked0
                  + (if BothGuests(byName0) && !SameGuests(byName0) then {GuestCount, GuestCountRange} else {})
                  + (if BudgetDeclinedToo(byName0) then {EstimatedBudget, BudgetDeclined} else {})
  }

  lemma CrossesIff(env: Env, es: seq<Entity>, undecoded: seq<Rejection>, order: seq<Family>,
                   byName: map<Family, Accepted>, blocked: set<Family>, rejected: seq<Rejection>)
    requires Folded(env, es, undecoded, order, byName, blocked, rejected)
    ensures TwoGuests(env, es) <==> BothGuests(byName)
    ensures TwoGuests(env, es) ==> (GuestsAgree(env, es) <==> SameGuests(byName))
    ensures BudgetAndDeclined(env, es) <==> BudgetDeclinedToo(byName)
  {
  }

  /** What is left, unblocked, is what survives. */
  lemma SurvivorsIff(env: Env, es: seq<Entity>, undecoded: seq<Rejection>, order: seq<Family>,
                     byName0: map<Family, Accepted>, blocked0: set<Family>, rejected: seq<Rejection>,
                     byName: map<Family, Accepted>, blocked: set<Family>, f: Family)
    requires Folded(env, es, undecoded, order, byName0, blocked0, rejected) && Settled(byName0, blocked0, byName, blocked)
    ensures f in byName && f !in blocked <==> Survives(env, es, undecoded, f)
    ensures f in byName ==> First(env, es, f) == Some(byName[f]) && byName[f].entity.family == f && f in order
  {
    UnanimousIff(env, es, f);
    FirstExists(env, es, f);
  }

  lemma InOrderOfAppearance(env: Env, es: seq<Entity>, order: seq<Family>, accepted: seq<Accepted>)
    requires forall p, q | 0 <= p < q < |order| :: FirstAt(env, es, order[p]) < FirstAt(env, es, order[q])
    requires forall i, j | 0 <= i < j < |accepted| ::
               InTurn(order, accepted[i].entity.family, accepted[j].entity.family)
    ensures forall i, j | 0 <= i < j < |accepted| ::
              FirstAt(env, es, accepted[i].entity.family) < FirstAt(env, es, accepted[j].entity.family)
  {
    forall i, j | 0 <= i < j < |accepted|
      ensures FirstAt(env, es, accepted[i].entity.family) < FirstAt(env, es, accepted[j].entity.family)
    {
      assert InTurn(order, accepted[i].entity.family, accepted[j].entity.family);
      var p, q :| 0 <= p < q < |order| && order[p] == accepted[i].entity.family && order[q] == accepted[j].entity.family;
    }
  }

  /** validate_entities, from decoded entities and the envelopes that could not be decoded: a family is
      accepted, once and with its first value, exactly when it survives. */
  method ValidateEntities(env: Env, decoded: seq<Entity>, undecoded: seq<Rejection>) returns (batch: Batch)
    ensures forall a :: a in batch.accepted <==>
              Survives(env, decoded, undecoded, a.entity.family) && First(env, decoded, a.entity.family) == Some(a)
    ensures forall i, j | 0 <= i < j < |batch.accepted| ::
              batch.accepted[i].entity.family != batch.accepted[j].entity.family
    ensures forall i, j | 0 <= i < j < |batch.accepted| ::
              FirstAt(env, decoded, batch.accepted[i].entity.family) < FirstAt(env, decoded, batch.accepted[j].entity.family)
    ensures batch.rejected == undecoded + Rejections(env, decoded) + CrossRejections(env, decoded)
  {
    var rejected := undecoded;
    var byName: map<Family, Accepted> := map[];
    var order: seq<Family> := [];
    var blocked: set<Family> := set r | r in undecoded && r.family.Some? :: r.family.value;
    for i := 0 to |decoded|
      invariant Folded(env, decoded[..i], undecoded, order, byName, blocked, rejected)
    {
      assert decoded[..i+1] == decoded[..i] + [decoded[i]];
      order, byName, blocked, rejected :=
        FoldIn(env, decoded[i], order, byName, blocked, rejected, decoded[..i], undecoded);
    }
    assert decoded[..|decoded|] == decoded;
    ghost var byName0, blocked0, rejected0 := byName, blocked, rejected;
    CrossesIff(env, decoded, undecoded, order, byName, blocked, rejected);
    byName, blocked, rejected := SettleConflicts(byName, blocked, rejected);
    forall f ensures f in byName && f !in blocked <==> Survives(env, decoded, undecoded, f) {
      SurvivorsIff(env, decoded, undecoded, order, byName0, blocked0, rejected0, byName, blocked, f);
    }
    forall f | f in byName
      ensures First(env, decoded, f) == Some(byName[f]) && byName[f].entity.family == f && f in order
    {
      SurvivorsIff(env, decoded, undecoded, order, byName0, blocked0, rejected0, byName, blocked, f);
    }
    var accepted := Collect(order, byName, blocked);
    InOrderOfAppearance(env, decoded, order, accepted);
    batch := Batch(accepted, rejected);
  }

  /** In any batch: never a guest count beside a range, never a budget beside a declined one. */
  lemma NoContradiction(env: Env, es: seq<Entity>, undecoded: seq<Rejection>, a: Accepted)
    requires Survives(env, es, undecoded, a.entity.family) && First(env, es, a.entity.family) == Some(a)
    ensures a.entity.family == GuestCount ==> !Survives(env, es, undecoded, GuestCountRange)
    ensures a.entity.family == EstimatedBudget && Survives(env, es, undecoded, BudgetDeclined) ==>
              First(env, es, BudgetDeclined).value.value == Flag(false)
  {
    FirstExists(env, es, BudgetDeclined);
  }

  /** Every representation of an accepted family validated, and means what the accepted one means. */
  lemma AcceptedIsUnanimous(env: Env, es: seq<Entity>, undecoded: seq<Rejection>, a: Accepted, e: Entity)
    requires Survives(env, es, undecoded, a.entity.family) && First(env, es, a.entity.family) == Some(a)
    requires e in es && e.family == a.entity.family
    ensures Validate(env, e).Ok? && Comparable(Validate(env, e).value) == Comparable(a.value)
    ensures a.entity in es && Validate(env, a.entity) == Ok(a.value)
  {
    FirstExists(env, es, a.entity.family);
  }

  // ----- What survives, in terms of the representations -----

  predicate Represents(es: seq<Entity>, f: Family, i: nat) {
    i < |es| && es[i].family == f
  }

  predicate SameMeaning(v: Value, v': Value) {
    v == v' || (v.Date? && v'.Date? && v.day == v'.day && v.month == v'.month && v.kind == v'.kind)
  }

  /** The family is represented, all its representations validate, and any two of them mean the same and are
      alike in whether they need confirmation. */
  predicate Undisputed(env: Env, es: seq<Entity>, f: Family) {
    && (exists i | 0 <= i < |es| :: Represents(es, f, i))
    && (forall i | 0 <= i < |es| && Represents(es, f, i) :: Validate(env, es[i]).Ok?)
    && forall i, k | 0 <= i < |es| && 0 <= k < |es| && Represents(es, f, i) && Represents(es, f, k) ::
         && SameMeaning(Validate(env, es[i]).value, Validate(env, es[k]).value)
         && es[i].needsConfirmation == es[k].needsConfirmation
  }

  /** The accepted representation is the earliest that validates. */
  lemma {:induction false} FirstIsEarliest(env: Env, es: seq<Entity>, f: Family) returns (n: nat)
    ensures n <= |es| && forall i | 0 <= i < n && Represents(es, f, i) :: Validate(env, es[i]).Err?
    ensures First(env, es, f).None? <==> n == |es|
    ensures n < |es| ==> Represents(es, f, n) && Validate(env, es[n]).Ok?
                         && First(env, es, f) == Some(Accepted(es[n], Validate(env, es[n]).value))
    ensures n == FirstAt(env, es, f)
  {
    if es == [] {
      n := 0;
    } else {
      var front := es[..|es|-1];
      n := FirstIsEarliest(env, front, f);
      forall i | 0 <= i < |front| ensures (Represents(front, f, i) <==> Represents(es, f, i)) && front[i] == es[i] { }
      if n == |front| && !(es[n].family == f && Validate(env, es[n]).Ok?) { n := |es|; }
    }
  }

  lemma UndisputedIff(env: Env, es: seq<Entity>, f: Family)
    ensures Undisputed(env, es, f) <==> First(env, es, f).Some? && Unanimous(env, es, f)
  {
    var n := FirstIsEarliest(env, es, f);
    if First(env, es, f).Some? && Unanimous(env, es, f) {
      forall i | 0 <= i < |es| && Represents(es, f, i)
        ensures Validate(env, es[i]).Ok? && Agrees(First(env, es, f).value, es[i], Validate(env, es[i]).value)
      {
        assert es[i] in es;
      }
    }
    if Undisputed(env, es, f) {
      forall e | e in es && e.family == f
        ensures Validate(env, e).Ok? && First(env, es, f).Some? && Agrees(First(env, es, f).value, e, Validate(env, e).value)
      {
        var i :| 0 <= i < |es| && es[i] == e;
        assert Represents(es, f, i) && Represents(es, f, n);
      }
    }
  }

  /** Which of the validated statements in the batch counts for a family: the earliest. */
  predicate Stated(env: Env, es: seq<Entity>, f: Family, v: Value) {
    exists n | 0 <= n < |es| ::
      && Represents(es, f, n) && Validate(env, es[n]) == Ok(v)
      && forall i | 0 <= i < n && Represents(es, f, i) :: Validate(env, es[i]).Err?
  }

  lemma StatedIff(env: Env, es: seq<Entity>, f: Family, v: Value)
    ensures Stated(env, es, f, v) <==> First(env, es, f).Some? && First(env, es, f).value.value == v
  {
    var n := FirstIsEarliest(env, es, f);
    if Stated(env, es, f, v) {
      var m :| 0 <= m < |es| && Represents(es, f, m) && Validate(env, es[m]) == Ok(v)
               && forall i | 0 <= i < m && Represents(es, f, i) :: Validate(env, es[i]).Err?;
      assert m == n;
    }
  }

  /** A family survives when it is undisputed and was decoded throughout, and: a guest count unless a range is
      stated that is not exactly this count; a range when no count is stated; a budget and a declined budget
      unless both are stated and the budget is declined. */
  lemma SurvivesIff(env: Env, es: seq<Entity>, undecoded: seq<Rejection>, f: Family)
    ensures Survives(env, es, undecoded, f) <==>
              && Undisputed(env, es, f) && (forall i | 0 <= i < |undecoded| :: undecoded[i].family != Some(f))
              && (f == GuestCount ==>
                    forall n, low, high | Stated(env, es, GuestCount, Count(n))
                                          && Stated(env, es, GuestCountRange, Range(low, high)) :: low == n == high)
              && (f == GuestCountRange ==> forall n :: !Stated(env, es, GuestCount, Count(n)))
              && (f == EstimatedBudget ==> !Stated(env, es, BudgetDeclined, Flag(true)))
              && (f == BudgetDeclined ==>
                    !(Stated(env, es, BudgetDeclined, Flag(true)) && First(env, es, EstimatedBudget).Some?))
  {
    UndisputedIff(env, es, f);
    forall i | 0 <= i < |undecoded| ensures undecoded[i] in undecoded { }
    GuestValues(env, es);
    StatedIff(env, es, BudgetDeclined, Flag(true));
    GuestStatements(env, es);
  }

  lemma GuestStatements(env: Env, es: seq<Entity>)
    ensures First(env, es, GuestCount).Some? <==> exists n :: Stated(env, es, GuestCount, Count(n))
    ensures TwoGuests(env, es) ==>
              (GuestsAgree(env, es) <==>
                 forall n, low, high | Stated(env, es, GuestCount, Count(n))
                                       && Stated(env, es, GuestCountRange, Range(low, high)) :: low == n == high)
    ensures (exists low, high :: Stated(env, es, GuestCountRange, Range(low, high))) ==>
              First(env, es, GuestCountRange).Some?
  {
    GuestValues(env, es);
    forall n ensures Stated(env, es, GuestCount, Count(n)) <==>
        First(env, es, GuestCount).Some? && First(env, es, GuestCount).value.value == Count(n)
    {
      StatedIff(env, es, GuestCount, Count(n));
    }
    forall low, high ensures Stated(env, es, GuestCountRange, Range(low, high)) <==>
        First(env, es, GuestCountRange).Some? && First(env, es, GuestCountRange).value.value == Range(low, high)
    {
      StatedIff(env, es, GuestCountRange, Range(low, high));
    }
    if First(env, es, GuestCount).Some? {
      assert Stated(env, es, GuestCount, Count(First(env, es, GuestCount).value.value.n));
      if First(env, es, GuestCountRange).Some? {
        var r := First(env, es, GuestCountRange).value.value;
        assert Stated(env, es, GuestCountRange, Range(r.low, r.high));
      }
    }
  }

  // ----- Order -----

  const SaysDeclined: Entity := Entity(BudgetDeclined, "", Bool(true), Provided, false)
  const SaysNotDeclined: Entity := Entity(BudgetDeclined, "", Bool(false), Provided, false)

  /** The outcome can depend on the order of the entities: of two contradicting statements about a declined
      budget, only the first is held against the amount. */
  lemma OrderCanMatter(env: Env, amount: Entity)
    requires amount.family == EstimatedBudget && Validate(env, amount).Ok?
    ensures !Survives(env, [amount, SaysDeclined, SaysNotDeclined], [], EstimatedBudget)
    ensures Survives(env, [amount, SaysNotDeclined, SaysDeclined], [], EstimatedBudget)
  {
    FirstOfThree(env, amount, SaysDeclined, SaysNotDeclined);
    FirstOfThree(env, amount, SaysNotDeclined, SaysDeclined);
    forall e | e in [amount, SaysNotDeclined, SaysDeclined] && e.family == EstimatedBudget ensures e == amount { }
  }

  lemma FirstOfThree(env: Env, amount: Entity, x: Entity, y: Entity)
    requires amount.family == EstimatedBudget && Validate(env, amount).Ok?
    requires x == SaysDeclined || x == SaysNotDeclined
    ensures First(env, [amount, x, y], EstimatedBudget) == Some(Accepted(amount, Validate(env, amount).value))
    ensures First(env, [amount, x, y], BudgetDeclined) == Some(Accepted(x, Flag(x.normalized.b)))
  {
    assert [] + [amount] == [amount] && [amount] + [x] == [amount, x] && [amount, x] + [y] == [amount, x, y];
    FirstStep(env, [], amount, EstimatedBudget);
    FirstStep(env, [], amount, BudgetDeclined);
    FirstStep(env, [amount], x, EstimatedBudget);
    FirstStep(env, [amount], x, BudgetDeclined);
    FirstStep(env, [amount, x], y, EstimatedBudget);
    FirstStep(env, [amount, x], y, BudgetDeclined);
  }

  ghost predicate SameElements(es: seq<Entity>, es': seq<Entity>) {
    forall e :: e in es <==> e in es'
  }

  lemma UnanimousInAnyOrder(env: Env, es: seq<Entity>, es': seq<Entity>, f: Family)
    requires SameElements(es, es') && Unanimous(env, es, f)
    ensures Unanimous(env, es', f)
    ensures First(env, es, f).Some? <==> First(env, es', f).Some?
    ensures First(env, es, f).Some? ==>
              Comparable(First(env, es, f).value.value) == Comparable(First(env, es', f).value.value)
  {
    FirstExists(env, es, f);
    FirstExists(env, es', f);
    if First(env, es', f).Some? { assert First(env, es', f).value.entity in es; }
    if First(env, es, f).Some? { assert First(env, es, f).value.entity in es'; }
  }

  lemma GuestValues(env: Env, es: seq<Entity>)
    ensures First(env, es, GuestCount).Some? ==> First(env, es, GuestCount).value.value.Count?
    ensures First(env, es, GuestCountRange).Some? ==> First(env, es, GuestCountRange).value.value.Range?
    ensures First(env, es, BudgetDeclined).Some? ==> First(env, es, BudgetDeclined).value.value.Flag?
  {
    FirstExists(env, es, GuestCount);
    FirstExists(env, es, GuestCountRange);
    FirstExists(env, es, BudgetDeclined);
  }

  /** All representations of the family agree on a value, and none of them was undecodable. */
  predicate Solid(env: Env, es: seq<Entity>, undecoded: seq<Rejection>, f: Family) {
    First(env, es, f).Some? && Unanimous(env, es, f) && !Named(undecoded, f)
  }

  predicate Says(env: Env, es: seq<Entity>, f: Family, v: Value) {
    exists e | e in es :: e.family == f && Validate(env, e) == Ok(v)
  }

  predicate SaysOtherwise(env: Env, es: seq<Entity>, f: Family, v: Value) {
    exists e | e in es :: e.family == f && Validate(env, e).Ok? && Validate(env, e).value != v
  }

  /** A solid guest count n meets a range statement of exactly n and another one. */
  predicate RangeContradictsCount(env: Env, es: seq<Entity>, undecoded: seq<Rejection>) {
    && Solid(env, es, undecoded, GuestCount) && First(env, es, GuestCount).value.value.Count?
    && var n := First(env, es, GuestCount).value.value.n;
    && Says(env, es, GuestCountRange, Range(n, n)) && SaysOtherwise(env, es, GuestCountRange, Range(n, n))
  }

  /** A solid budget meets both a declined and a not declined budget. */
  predicate DeclineContradictsBudget(env: Env, es: seq<Entity>, undecoded: seq<Rejection>) {
    && Solid(env, es, undecoded, EstimatedBudget)
    && Says(env, es, BudgetDeclined, Flag(true)) && SaysOtherwise(env, es, BudgetDeclined, Flag(true))
  }

  predicate OrderSensitive(env: Env, es: seq<Entity>, undecoded: seq<Rejection>) {
    RangeContradictsCount(env, es, undecoded) || DeclineContradictsBudget(env, es, undecoded)
  }

  lemma SolidInAnyOrder(env: Env, es: seq<Entity>, es': seq<Entity>, undecoded: seq<Rejection>, f: Family)
    requires SameElements(es, es')
    ensures Solid(env, es, undecoded, f) <==> Solid(env, es', undecoded, f)
    ensures First(env, es, f).Some? <==> First(env, es', f).Some?
    ensures Solid(env, es, undecoded, f) ==>
              Comparable(First(env, es, f).value.value) == Comparable(First(env, es', f).value.value)
  {
    FirstExists(env, es, f);
    FirstExists(env, es', f);
    if Unanimous(env, es, f) { UnanimousInAnyOrder(env, es, es', f); }
    if Unanimous(env, es', f) { UnanimousInAnyOrder(env, es', es, f); }
  }

  lemma FirstSays(env: Env, es: seq<Entity>, f: Family, v: Value)
    requires First(env, es, f).Some?
    ensures First(env, es, f).value.value == v ==> Says(env, es, f, v)
    ensures First(env, es, f).value.value != v ==> SaysOtherwise(env, es, f, v)
  {
    FirstExists(env, es, f);
  }

  lemma SaysInAnyOrder(env: Env, es: seq<Entity>, es': seq<Entity>, f: Family, v: Value)
    requires SameElements(es, es')
    ensures Says(env, es, f, v) <==> Says(env, es', f, v)
    ensures SaysOtherwise(env, es, f, v) <==> SaysOtherwise(env, es', f, v)
  {
  }

  lemma GuestCountInAnyOrder(env: Env, es: seq<Entity>, es': seq<Entity>, undecoded: seq<Rejection>)
    requires SameElements(es, es') && !RangeContradictsCount(env, es, undecoded)
    ensures Survives(env, es, undecoded, GuestCount) ==> Survives(env, es', undecoded, GuestCount)
  {
    SolidInAnyOrder(env, es, es', undecoded, GuestCount);
    SolidInAnyOrder(env, es, es', undecoded, GuestCountRange);
    GuestValues(env, es);
    GuestValues(env, es');
    if Survives(env, es, undecoded, GuestCount) && TwoGuests(env, es) {
      var n := First(env, es, GuestCount).value.value.n;
      FirstSays(env, es, GuestCountRange, Range(n, n));
      FirstSays(env, es', GuestCountRange, Range(n, n));
      SaysInAnyOrder(env, es, es', GuestCountRange, Range(n, n));
    }
  }

  lemma BudgetInAnyOrder(env: Env, es: seq<Entity>, es': seq<Entity>, undecoded: seq<Rejection>)
    requires SameElements(es, es') && !DeclineContradictsBudget(env, es, undecoded)
    ensures Survives(env, es, undecoded, EstimatedBudget) ==> Survives(env, es', undecoded, EstimatedBudget)
  {
    SolidInAnyOrder(env, es, es', undecoded, EstimatedBudget);
    SolidInAnyOrder(env, es, es', undecoded, BudgetDeclined);
    if Survives(env, es, undecoded, EstimatedBudget) && First(env, es, BudgetDeclined).Some? {
      FirstSays(env, es, BudgetDeclined, Flag(true));
      FirstSays(env, es', BudgetDeclined, Flag(true));
      SaysInAnyOrder(env, es, es', BudgetDeclined, Flag(true));
    }
  }

  lemma SensitivityInAnyOrder(env: Env, es: seq<Entity>, es': seq<Entity>, undecoded: seq<Rejection>)
    requires SameElements(es, es')
    ensures OrderSensitive(env, es, undecoded) <==> OrderSensitive(env, es', undecoded)
  {
    SolidInAnyOrder(env, es, es', undecoded, GuestCount);
    SolidInAnyOrder(env, es, es', undecoded, EstimatedBudget);
    GuestValues(env, es);
    GuestValues(env, es');
  }

  /** One direction of survival under reordering. */
  lemma SurvivesInAnyOrder(env: Env, es: seq<Entity>, es': seq<Entity>, undecoded: seq<Rejection>, f: Family)
    requires SameElements(es, es') && !OrderSensitive(env, es, undecoded) && Survives(env, es, undecoded, f)
    ensures Survives(env, es', undecoded, f)
  {
    SolidInAnyOrder(env, es, es', undecoded, f);
    match f
    case GuestCount => GuestCountInAnyOrder(env, es, es', undecoded);
    case EstimatedBudget => BudgetInAnyOrder(env, es, es', undecoded);
    case GuestCountRange => SolidInAnyOrder(env, es, es', undecoded, GuestCount);
    case BudgetDeclined =>
      SolidInAnyOrder(env, es, es', undecoded, EstimatedBudget);
      GuestValues(env, es);
      GuestValues(env, es');
    case _ =>
  }

  /** Without such a contradiction the same entities in any order, and however often repeated, give the
      same surviving families. */
  lemma OrderIsIrrelevantWithoutContradiction(
    env: Env, es: seq<Entity>, es': seq<Entity>, undecoded: seq<Rejection>, f: Family)
    requires SameElements(es, es') && !OrderSensitive(env, es, undecoded)
    ensures Survives(env, es, undecoded, f) <==> Survives(env, es', undecoded, f)
  {
    SensitivityInAnyOrder(env, es, es', undecoded);
    if Survives(env, es, undecoded, f) { SurvivesInAnyOrder(env, es, es', undecoded, f); }
    if Survives(env, es', undecoded, f) { SurvivesInAnyOrder(env, es', es, undecoded, f); }
  }

  // --- with one, some reordering changes the outcome ---

  lemma {:induction false} FirstOfHead(env: Env, x: Entity, rest: seq<Entity>)
    requires Validate(env, x).Ok?
    ensures First(env, [x] + rest, x.family) == Some(Accepted(x, Validate(env, x).value))
  {
    if rest == [] {
      assert [x] + rest == [] + [x];
      FirstStep(env, [], x, x.family);
    } else {
      var front, last := rest[..|rest|-1], rest[|rest|-1];
      FirstOfHead(env, x, front);
      assert [x] + rest == ([x] + front) + [last];
      FirstStep(env, [x] + front, last, x.family);
    }
  }

  /** The same entities with one of them moved to the front. */
  lemma MovedToFront(env: Env, es: seq<Entity>, x: Entity) returns (es': seq<Entity>)
    requires x in es && Validate(env, x).Ok?
    ensures multiset(es') == multiset(es) && SameElements(es, es')
    ensures First(env, es', x.family) == Some(Accepted(x, Validate(env, x).value))
  {
    var k :| 0 <= k < |es| && es[k] == x;
    var rest := es[..k] + es[k+1..];
    es' := [x] + rest;
    assert es == es[..k] + [x] + es[k+1..];
    FirstOfHead(env, x, rest);
    forall e ensures e in es <==> e in es' {
      assert e in es <==> e in multiset(es);
      assert e in es' <==> e in multiset(es');
    }
  }

  /** An entity whose statement about f is on the other side of v than the first one's. */
  lemma OtherStatement(env: Env, es: seq<Entity>, f: Family, v: Value) returns (x: Entity)
    requires First(env, es, f).Some? && Says(env, es, f, v) && SaysOtherwise(env, es, f, v)
    ensures x in es && x.family == f && Validate(env, x).Ok?
    ensures (Validate(env, x).value == v) != (First(env, es, f).value.value == v)
  {
    if First(env, es, f).value.value == v {
      x :| x in es && x.family == f && Validate(env, x).Ok? && Validate(env, x).value != v;
    } else {
      x :| x in es && x.family == f && Validate(env, x) == Ok(v);
    }
  }

  lemma ContradictionReorders(env: Env, es: seq<Entity>, undecoded: seq<Rejection>)
    returns (es': seq<Entity>, f: Family)
    requires OrderSensitive(env, es, undecoded)
    ensures multiset(es') == multiset(es)
    ensures Survives(env, es, undecoded, f) != Survives(env, es', undecoded, f)
  {
    var other, v := BudgetDeclined, Flag(true);
    f := EstimatedBudget;
    if RangeContradictsCount(env, es, undecoded) {
      var n := First(env, es, GuestCount).value.value.n;
      f, other, v := GuestCount, GuestCountRange, Range(n, n);
    }
    FirstExists(env, es, other);
    var x := OtherStatement(env, es, other, v);
    es' := MovedToFront(env, es, x);
    SolidInAnyOrder(env, es, es', undecoded, f);
    GuestValues(env, es');
  }

  ghost predicate SomeOrderDiffers(env: Env, es: seq<Entity>, undecoded: seq<Rejection>) {
    exists es', f :: multiset(es') == multiset(es) && Survives(env, es, undecoded, f) != Survives(env, es', undecoded, f)
  }

  /** The order of the entities can change which families survive exactly when a solid guest count meets both
      a range of exactly that many and another range, or a solid budget meets both a declined and a not
      declined budget. */
  lemma OrderMattersIff(env: Env, es: seq<Entity>, undecoded: seq<Rejection>)
    ensures OrderSensitive(env, es, undecoded) <==> SomeOrderDiffers(env, es, undecoded)
  {
    if OrderSensitive(env, es, undecoded) {
      var es', f := ContradictionReorders(env, es, undecoded);
    } else {
      forall es', f | multiset(es') == multiset(es)
        ensures Survives(env, es, undecoded, f) == Survives(env, es', undecoded, f)
      {
        forall e ensures e in es <==> e in es' {
          assert e in es <==> e in multiset(es);
          assert e in es' <==> e in multiset(es');
        }
        OrderIsIrrelevantWithoutContradiction(env, es, es', undecoded, f);
      }
    }
  }
}
