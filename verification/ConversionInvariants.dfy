/** What ties every conversion row to the credit it caused, and to what has happened to that credit. */
module ConversionInvariants {
  import opened Wrappers
  import opened Sums
  import opened Ledgers
  import opened LedgerInvariants
  import opened Conversions

  /** A movement made on behalf of a conversion: its credit, or the chargeback of that credit. */
  function NetAt(rows: seq<Row>, u: UserId): int -> int {
    i => if 0 <= i < |rows| && rows[i].user == u && IsConversionMove(rows, rows[i]) then rows[i].amount else 0
  }

  predicate IsConversionMove(rows: seq<Row>, r: Row) {
    || r.kind.ConversionCredit?
    || (r.kind.ChargebackDebit? && r.actsOn.Some? && r.actsOn.value < |rows|
        && rows[r.actsOn.value].kind.ConversionCredit?)
  }

  /** A user's net points from conversions. */
  function Net(rows: seq<Row>, u: UserId): int {
    SumTo(|rows|, NetAt(rows, u))
  }

  /** What a row is worth while it stands: its points, when it priced to any. */
  function Worth(c: Conversion): int {
    if c.kind == Original && 0 < c.points then c.points else 0
  }

  predicate Stands(s: Status) {
    s == Credited || s == Held
  }

  function StandingAt(cs: seq<Conversion>, u: UserId): int -> int {
    i => if 0 <= i < |cs| && cs[i].user == u && Stands(cs[i].status) then Worth(cs[i]) else 0
  }

  function Standing(cs: seq<Conversion>, u: UserId): int {
    SumTo(|cs|, StandingAt(cs, u))
  }

  // --- The invariant --------------------------------------------------------

  /** A credit names the conversion it pays, and is the only one that does. */
  ghost predicate CreditIsConversion(rows: seq<Row>, cs: seq<Conversion>, j: nat)
    requires j < |rows|
  {
    rows[j].kind.ConversionCredit? ==>
      && rows[j].source.FromConversion? && rows[j].source.conversion < |cs|
      && FindBySource(rows, rows[j].source.conversion) == Some(j)
  }

  ghost predicate CreditsAreConversions(rows: seq<Row>, cs: seq<Conversion>) {
    forall j | 0 <= j < |rows| :: CreditIsConversion(rows, cs, j)
  }

  /** A conversion's status against the credit it caused, if it caused one. */
  ghost predicate Agrees(rows: seq<Row>, c: Conversion, credit: Option<nat>) {
    && (credit.Some? ==>
          credit.value < |rows| && c.kind == Original && 0 < c.points
          && rows[credit.value].user == c.user && rows[credit.value].amount == c.points)
    && match c.status
       case Pending => credit.None? && !c.reviewed
       case Attributed => credit.None? && !c.reviewed
       case Credited =>
         && (0 < Worth(c) ==> credit.Some?)
         && (credit.Some? ==> !ChargedBack(rows, credit.value) && (c.reviewed ==> Matured(rows, credit.value)))
       case Held =>
         && (0 < Worth(c) ==> credit.Some?)
         && !c.reviewed
         && (credit.Some? ==>
               !ChargedBack(rows, credit.value) && !Matured(rows, credit.value)
               && rows[credit.value].maturesAt == None)
       case Reversed => credit.Some? ==> ChargedBack(rows, credit.value)
       case Rejected =>
         && (credit.Some? <==> c.reviewed && 0 < Worth(c))
         && (credit.Some? ==> ChargedBack(rows, credit.value) && !Matured(rows, credit.value))
  }

  /** An admin released the hold; a later chargeback may have reversed what was released. */
  predicate Cleared(c: Conversion) {
    c.reviewed && (c.status == Credited || c.status == Reversed)
  }

  /** A maturation acts on a credit whose stored date had come, or whose hold an admin cleared. */
  ghost predicate Justified(rows: seq<Row>, cs: seq<Conversion>, j: nat)
    requires j < |rows|
  {
    rows[j].kind.RewardMaturation? && rows[j].actsOn.Some? && rows[j].actsOn.value < |rows| ==>
      var credit := rows[rows[j].actsOn.value];
      || (credit.maturesAt.Some? && credit.maturesAt.value <= rows[j].at)
      || (credit.kind.ConversionCredit? && credit.source.FromConversion?
          && credit.source.conversion < |cs| && Cleared(cs[credit.source.conversion]))
  }

  ghost predicate ConversionInv(rows: seq<Row>, cs: seq<Conversion>) {
    && CreditsAreConversions(rows, cs)
    && (forall k | 0 <= k < |cs| :: Agrees(rows, cs[k], FindBySource(rows, k)))
    && (forall k | 0 <= k < |cs| && cs[k].reversalOf.Some? :: cs[k].reversalOf.value < k)
    && (forall j | 0 <= j < |rows| :: Justified(rows, cs, j))
    && (forall u: UserId :: Net(rows, u) == Standing(cs, u))
  }

  // --- One more ledger row --------------------------------------------------

  lemma FindAppend(rows: seq<Row>, r: Row, k: nat)
    ensures FindBySource(rows + [r], k) ==
            if FindBySource(rows, k).Some? then FindBySource(rows, k)
            else if r.kind.ConversionCredit? && r.source == FromConversion(k) then Some(|rows|)
            else None
  {
  }

  lemma NetAppend(rows: seq<Row>, r: Row, u: UserId)
    requires Structured(rows)
    requires r.actsOn.Some? ==> r.actsOn.value < |rows|
    ensures Net(rows + [r], u) ==
            Net(rows, u) + (if r.user == u && IsConversionMove(rows, r) then r.amount else 0)
  {
    forall i | 0 <= i < |rows| ensures NetAt(rows, u)(i) == NetAt(rows + [r], u)(i) {
      assert WellFormed(rows, i);
    }
    SumAgrees(|rows|, NetAt(rows, u), NetAt(rows + [r], u));
  }

  /** Nobody has a credit for a conversion that does not exist yet. */
  lemma NoCreditYet(rows: seq<Row>, cs: seq<Conversion>, k: nat)
    requires CreditsAreConversions(rows, cs)
    ensures |cs| <= k ==> FindBySource(rows, k).None?
  {
    if FindBySource(rows, k).Some? {
      assert CreditIsConversion(rows, cs, FindBySource(rows, k).value);
    }
  }

  lemma CreditsStillConversions(rows: seq<Row>, cs: seq<Conversion>, cs': seq<Conversion>)
    requires CreditsAreConversions(rows, cs) && |cs| <= |cs'|
    ensures CreditsAreConversions(rows, cs')
  {
    forall j | 0 <= j < |rows| ensures CreditIsConversion(rows, cs', j) {
      assert CreditIsConversion(rows, cs, j);
    }
  }

  lemma CreditsStayConversions(rows: seq<Row>, r: Row, cs: seq<Conversion>, cs': seq<Conversion>)
    requires CreditsAreConversions(rows, cs) && |cs| <= |cs'|
    requires r.kind.ConversionCredit? ==>
               r.source.FromConversion? && r.source.conversion < |cs'| && FindBySource(rows, r.source.conversion).None?
    ensures CreditsAreConversions(rows + [r], cs')
  {
    var more := rows + [r];
    forall j | 0 <= j < |more| ensures CreditIsConversion(more, cs', j) {
      if j < |rows| {
        assert CreditIsConversion(rows, cs, j) && more[j] == rows[j];
      }
      if more[j].kind.ConversionCredit? {
        FindAppend(rows, r, more[j].source.conversion);
      }
    }
  }

  /** A row that acts on no credit of a conversion leaves that conversion's agreement alone. */
  lemma AgreesAppend(rows: seq<Row>, r: Row, c: Conversion, credit: Option<nat>)
    requires Agrees(rows, c, credit)
    requires credit.Some? && r.actsOn == Some(credit.value) ==>
               r.kind.RewardMaturation? && c.status != Held && c.status != Rejected
    ensures Agrees(rows + [r], c, credit)
  {
    if credit.Some? {
      ActedOnAppend(rows, r, credit.value, ChargebackDebit);
      ActedOnAppend(rows, r, credit.value, RewardMaturation);
    }
  }

  lemma JustifiedAppend(rows: seq<Row>, r: Row, cs: seq<Conversion>, cs': seq<Conversion>)
    requires Structured(rows) && WellFormed(rows + [r], |rows|)
    requires forall j | 0 <= j < |rows| :: Justified(rows, cs, j)
    requires |cs| <= |cs'| && forall k | 0 <= k < |cs| && Cleared(cs[k]) :: Cleared(cs'[k])
    requires Justified(rows + [r], cs', |rows|)
    ensures forall j | 0 <= j < |rows + [r]| :: Justified(rows + [r], cs', j)
  {
    var more := rows + [r];
    forall j | 0 <= j < |more| ensures Justified(more, cs', j) {
      if j < |rows| {
        assert Justified(rows, cs, j) && WellFormed(rows, j) && more[j] == rows[j];
        if rows[j].kind.RewardMaturation? {
          assert more[rows[j].actsOn.value] == rows[rows[j].actsOn.value];
        }
      }
    }
  }

  // --- Moves that are about no conversion -----------------------------------

  /** Bonuses, adjustments, payout movements, and maturations whose date has come. */
  ghost predicate Unrelated(rows: seq<Row>, r: Row) {
    && !r.kind.ConversionCredit? && !r.kind.ChargebackDebit?
    && (r.kind.RewardMaturation? ==>
          r.actsOn.Some? && r.actsOn.value < |rows|
          && rows[r.actsOn.value].maturesAt.Some? && rows[r.actsOn.value].maturesAt.value <= r.at)
  }

  lemma UnrelatedMovesKeepConversions(l: Ledger, r: Row, cs: seq<Conversion>)
    requires Structured(l.rows) && Admissible(l, r) && Unrelated(l.rows, r) && ConversionInv(l.rows, cs)
    ensures ConversionInv(l.rows + [r], cs)
  {
    var rows := l.rows;
    CreditsStayConversions(rows, r, cs, cs);
    JustifiedAppend(rows, r, cs, cs);
    forall k | 0 <= k < |cs| ensures Agrees(rows + [r], cs[k], FindBySource(rows + [r], k)) {
      var credit := FindBySource(rows, k);
      FindAppend(rows, r, k);
      assert Agrees(rows, cs[k], credit);
      if credit.Some? && r.actsOn == credit {
        UnrelatedActsOnNoHold(l, r, cs[k], credit.value);
      }
      AgreesAppend(rows, r, cs[k], credit);
    }
    forall u: UserId ensures Net(rows + [r], u) == Standing(cs, u) {
      NetAppend(rows, r, u);
    }
  }

  lemma UnrelatedActsOnNoHold(l: Ledger, r: Row, c: Conversion, credit: nat)
    requires Structured(l.rows) && Admissible(l, r) && Unrelated(l.rows, r)
    requires credit < |l.rows| && l.rows[credit].kind.ConversionCredit? && r.actsOn == Some(credit)
    requires Agrees(l.rows, c, Some(credit))
    ensures r.kind.RewardMaturation? && c.status != Held && c.status != Rejected
  {
  }

  // --- One more conversion, one changed conversion --------------------------

  lemma StandingAppend(cs: seq<Conversion>, c: Conversion, u: UserId)
    ensures Standing(cs + [c], u) == Standing(cs, u) + (if c.user == u && Stands(c.status) then Worth(c) else 0)
  {
    SumAgrees(|cs|, StandingAt(cs, u), StandingAt(cs + [c], u));
  }

  lemma StandingUpdate(cs: seq<Conversion>, k: nat, c: Conversion, u: UserId)
    requires k < |cs|
    ensures Standing(cs[k := c], u) == Standing(cs, u) - StandingAt(cs, u)(k) + StandingAt(cs[k := c], u)(k)
  {
    SumDiffersAt(|cs|, StandingAt(cs, u), StandingAt(cs[k := c], u), k);
  }

  /** A conversion recorded without a credit. */
  lemma RecordKeeps(rows: seq<Row>, cs: seq<Conversion>, c: Conversion)
    requires ConversionInv(rows, cs) && Agrees(rows, c, None)
    requires c.reversalOf.Some? ==> c.reversalOf.value < |cs|
    ensures ConversionInv(rows, cs + [c])
  {
    var cs' := cs + [c];
    NoCreditYet(rows, cs, |cs|);
    CreditsStillConversions(rows, cs, cs');
    forall k | 0 <= k < |cs'| ensures Agrees(rows, cs'[k], FindBySource(rows, k)) {
      if k < |cs| {
        assert Agrees(rows, cs[k], FindBySource(rows, k));
      }
    }
    forall j | 0 <= j < |rows| ensures Justified(rows, cs', j) {
      assert Justified(rows, cs, j);
    }
    forall u: UserId ensures Net(rows, u) == Standing(cs', u) {
      StandingAppend(cs, c, u);
    }
  }

  /** The credit of the conversion about to be recorded. */
  ghost predicate Pays(rows: seq<Row>, r: Row, cs: seq<Conversion>, c: Conversion) {
    && r.kind.ConversionCredit? && r.source == FromConversion(|cs|) && r.actsOn == None
    && r.user == c.user && r.amount == c.points && 0 < c.points
    && c.kind == Original && c.reversalOf == None
    && (c.status == Credited || (c.status == Held && r.maturesAt == None)) && !c.reviewed
  }

  lemma CreditKeeps(l: Ledger, r: Row, cs: seq<Conversion>, c: Conversion)
    requires Structured(l.rows) && Admissible(l, r) && Pays(l.rows, r, cs, c) && ConversionInv(l.rows, cs)
    ensures ConversionInv(l.rows + [r], cs + [c])
  {
    var rows, cs' := l.rows, cs + [c];
    var more := rows + [r];
    NoCreditYet(rows, cs, |cs|);
    CreditsStayConversions(rows, r, cs, cs');
    JustifiedAppend(rows, r, cs, cs');
    NothingActsOnFresh(more, ChargebackDebit) by {
      StructuredAppend(rows, r);
    }
    forall k | 0 <= k < |cs'| ensures Agrees(more, cs'[k], FindBySource(more, k)) {
      FindAppend(rows, r, k);
      if k < |cs| {
        assert Agrees(rows, cs[k], FindBySource(rows, k));
        AgreesAppend(rows, r, cs[k], FindBySource(rows, k));
      } else {
        FreshCreditUntouched(rows, r);
      }
    }
    forall u: UserId ensures Net(more, u) == Standing(cs', u) {
      NetAppend(rows, r, u);
      StandingAppend(cs, c, u);
    }
  }

  lemma FreshCreditUntouched(rows: seq<Row>, r: Row)
    requires Structured(rows) && r.actsOn == None
    ensures !ChargedBack(rows + [r], |rows|) && !Matured(rows + [r], |rows|)
  {
    NothingActsOnFresh(rows, ChargebackDebit);
    NothingActsOnFresh(rows, RewardMaturation);
    ActedOnAppend(rows, r, |rows|, ChargebackDebit);
    ActedOnAppend(rows, r, |rows|, RewardMaturation);
  }

  /** The same conversion with a new status. */
  ghost predicate Restates(c: Conversion, c': Conversion) {
    c' == c.(status := c'.status, reviewed := c'.reviewed) && (Cleared(c) ==> Cleared(c'))
  }

  /** A conversion with no credit changes status; nothing it was worth moves. */
  lemma RestateKeeps(rows: seq<Row>, cs: seq<Conversion>, k: nat, c: Conversion)
    requires ConversionInv(rows, cs) && k < |cs| && FindBySource(rows, k).None?
    requires Restates(cs[k], c) && Agrees(rows, c, None)
    ensures ConversionInv(rows, cs[k := c])
  {
    var cs' := cs[k := c];
    assert Agrees(rows, cs[k], None);
    CreditsStillConversions(rows, cs, cs');
    forall m | 0 <= m < |cs'| ensures Agrees(rows, cs'[m], FindBySource(rows, m)) {
      assert Agrees(rows, cs[m], FindBySource(rows, m));
    }
    forall j | 0 <= j < |rows| ensures Justified(rows, cs', j) {
      assert Justified(rows, cs, j);
    }
    forall u: UserId ensures Net(rows, u) == Standing(cs', u) {
      StandingUpdate(cs, k, c, u);
    }
  }

  /** A row that acts on conversion k's credit leaves every other conversion's agreement alone. */
  lemma OthersAgree(l: Ledger, r: Row, cs: seq<Conversion>, k: nat, m: nat)
    requires ConversionInv(l.rows, cs) && k < |cs| && m < |cs| && m != k
    requires FindBySource(l.rows, k).Some? && r.actsOn == FindBySource(l.rows, k) && !r.kind.ConversionCredit?
    ensures Agrees(l.rows + [r], cs[m], FindBySource(l.rows + [r], m))
  {
  }

  /** The credit is charged back and its conversion is REVERSED, or REJECTED by an admin. */
  lemma TakeBackKeeps(l: Ledger, r: Row, cs: seq<Conversion>, k: nat, c: Conversion)
    requires Structured(l.rows) && Admissible(l, r) && ConversionInv(l.rows, cs) && k < |cs|
    requires FindBySource(l.rows, k).Some? && r.actsOn == FindBySource(l.rows, k) && r.kind.ChargebackDebit?
    requires Restates(cs[k], c) && (c.status == Reversed || (c.status == Rejected && c.reviewed && cs[k].status == Held))
    ensures ConversionInv(l.rows + [r], cs[k := c])
  {
    var rows, cs', credit := l.rows, cs[k := c], FindBySource(l.rows, k).value;
    var more := rows + [r];
    CreditsStayConversions(rows, r, cs, cs');
    JustifiedAppend(rows, r, cs, cs');
    assert Agrees(rows, cs[k], Some(credit));
    ActedOnAppend(rows, r, credit, ChargebackDebit);
    FindAppend(rows, r, k);
    forall m | 0 <= m < |cs'| ensures Agrees(more, cs'[m], FindBySource(more, m)) {
      if m != k {
        OthersAgree(l, r, cs, k, m);
      }
    }
    forall u: UserId ensures Net(more, u) == Standing(cs', u) {
      NetAppend(rows, r, u);
      StandingUpdate(cs, k, c, u);
    }
  }

  /** An admin clears a hold: the credit matures and the conversion is CREDITED. */
  lemma ReleaseKeeps(l: Ledger, r: Row, cs: seq<Conversion>, k: nat, c: Conversion)
    requires Structured(l.rows) && Admissible(l, r) && ConversionInv(l.rows, cs) && k < |cs|
    requires FindBySource(l.rows, k).Some? && r.actsOn == FindBySource(l.rows, k) && r.kind.RewardMaturation?
    requires cs[k].status == Held && Restates(cs[k], c) && c.status == Credited && c.reviewed
    ensures ConversionInv(l.rows + [r], cs[k := c])
  {
    var rows, cs', credit := l.rows, cs[k := c], FindBySource(l.rows, k).value;
    var more := rows + [r];
    CreditsStayConversions(rows, r, cs, cs');
    JustifiedAppend(rows, r, cs, cs');
    assert Agrees(rows, cs[k], Some(credit));
    ActedOnAppend(rows, r, credit, ChargebackDebit);
    FindAppend(rows, r, k);
    forall m | 0 <= m < |cs'| ensures Agrees(more, cs'[m], FindBySource(more, m)) {
      if m != k {
        OthersAgree(l, r, cs, k, m);
      }
    }
    forall u: UserId ensures Net(more, u) == Standing(cs', u) {
      NetAppend(rows, r, u);
      StandingUpdate(cs, k, c, u);
    }
  }
}
