/**
 * The shift document: its raw fields, the schema defaults for tips, and the
 * pre-save hook that derives the four calculated fields from the raw fields
 * and the owning user's hourly rate.
 */
module ShiftModel {
  import opened Common

  /** The calculated fields of a shift. */
  datatype Derived = Derived(totalTips: real, baseIncome: real, totalIncome: real, adjustedHourlyRate: Quotient)

  /**
   * The calculated fields for the raw fields of a shift and its owner's hourly
   * rate: tips are the two tip kinds together, income is pay plus tips, and the
   * adjusted rate spreads the tips over the hours (non-finite for zero hours).
   */
  function Derive(hoursWorked: real, cashTips: real, cardTips: real, hourlyRate: real): (d: Derived)
    ensures d.totalTips == cashTips + cardTips
    ensures d.baseIncome == hoursWorked * hourlyRate
    ensures d.totalIncome == hoursWorked * hourlyRate + cashTips + cardTips
    ensures d.adjustedHourlyRate.NonFinite? <==> hoursWorked == 0.0
    ensures hoursWorked != 0.0 ==>
              d.adjustedHourlyRate == Finite(hourlyRate + (cashTips + cardTips) / hoursWorked)
    ensures d.adjustedHourlyRate.Finite? ==> d.adjustedHourlyRate.value * hoursWorked == d.totalIncome
  {
    var totalTips := cashTips + cardTips;
    var baseIncome := hoursWorked * hourlyRate;
    var totalIncome := baseIncome + totalTips;
    assert hoursWorked != 0.0 ==> totalIncome / hoursWorked == hourlyRate + totalTips / hoursWorked by {
      if hoursWorked != 0.0 {
        assert totalIncome == (hourlyRate + totalTips / hoursWorked) * hoursWorked;
      }
    }
    Derived(totalTips, baseIncome, totalIncome, Divide(totalIncome, hoursWorked))
  }

  /** A shift document as it is stored, after at least one save. */
  datatype ShiftDoc = ShiftDoc(
    user: UserId,
    date: Date,
    hoursWorked: real,
    cashTips: real,
    cardTips: real,
    derived: Derived,
    createdAt: Timestamp)

  /** The calculated fields of `doc` agree with its raw fields and the rate `hourlyRate`. */
  predicate Consistent(doc: ShiftDoc, hourlyRate: real) {
    doc.derived == Derive(doc.hoursWorked, doc.cashTips, doc.cardTips, hourlyRate)
  }

  /** `doc` with its calculated fields computed afresh for the rate `hourlyRate`. */
  function Recalculated(doc: ShiftDoc, hourlyRate: real): (r: ShiftDoc)
    ensures Consistent(r, hourlyRate)
    ensures r.(derived := doc.derived) == doc
  {
    doc.(derived := Derive(doc.hoursWorked, doc.cashTips, doc.cardTips, hourlyRate))
  }

  /**
   * Recalculating twice with the same rate gives the same document as
   * recalculating once, and a consistent document is left as it is.
   */
  lemma RecalculateIdempotent(doc: ShiftDoc, hourlyRate: real)
    ensures Recalculated(Recalculated(doc, hourlyRate), hourlyRate) == Recalculated(doc, hourlyRate)
    ensures Consistent(doc, hourlyRate) <==> Recalculated(doc, hourlyRate) == doc
  {
  }

  /** The value a tip field takes when the document is created: the given one, or 0. */
  function TipOrDefault(supplied: Option<real>): (v: real)
    ensures supplied.Some? ==> v == supplied.value
    ensures supplied.None? ==> v == 0.0
  {
    match supplied
    case Some(x) => x
    case None => 0.0
  }

  datatype SaveOutcome = Saved | UserNotFound

  /** A shift document held in memory, whose fields the hook and the routes update in place. */
  class Shift {
    var user: UserId
    var date: Date
    var hoursWorked: real
    var cashTips: real
    var cardTips: real
    /** The calculated fields; None until the first save computes them. */
    var derived: Option<Derived>
    var createdAt: Timestamp

    /** A new document: tips left out default to 0, the calculated fields are not yet set. */
    constructor (user: UserId, date: Date, hoursWorked: real, cashTips: Option<real>, cardTips: Option<real>, now: Timestamp)
      ensures this.user == user && this.date == date && this.hoursWorked == hoursWorked
      ensures this.cashTips == TipOrDefault(cashTips) && this.cardTips == TipOrDefault(cardTips)
      ensures this.derived == None && this.createdAt == now
    {
      this.user := user;
      this.date := date;
      this.hoursWorked := hoursWorked;
      this.cashTips := TipOrDefault(cashTips);
      this.cardTips := TipOrDefault(cardTips);
      this.derived := None;
      this.createdAt := now;
    }

    /** A document loaded from the store. */
    constructor Load(doc: ShiftDoc)
      ensures derived.Some? && Snapshot() == doc
    {
      user := doc.user;
      date := doc.date;
      hoursWorked := doc.hoursWorked;
      cashTips := doc.cashTips;
      cardTips := doc.cardTips;
      derived := Some(doc.derived);
      createdAt := doc.createdAt;
    }

    /** The stored form of this document. */
    function Snapshot(): (doc: ShiftDoc)
      reads this
      requires derived.Some?
      ensures doc.user == user && doc.date == date && doc.derived == derived.value
      ensures doc.hoursWorked == hoursWorked && doc.cashTips == cashTips && doc.cardTips == cardTips
    {
      ShiftDoc(user, date, hoursWorked, cashTips, cardTips, derived.value, createdAt)
    }

    /** Assigns the four calculated fields, in order, from the raw fields and `hourlyRate`. */
    method Recalculate(hourlyRate: real)
      modifies this`derived
      ensures derived == Some(Derive(hoursWorked, cashTips, cardTips, hourlyRate))
    {
      var totalTips := cashTips + cardTips;
      var baseIncome := hoursWorked * hourlyRate;
      var totalIncome := baseIncome + totalTips;
      var adjustedHourlyRate := Divide(totalIncome, hoursWorked);
      assert Derived(totalTips, baseIncome, totalIncome, adjustedHourlyRate) == Derive(hoursWorked, cashTips, cardTips, hourlyRate);
      derived := Some(Derived(totalTips, baseIncome, totalIncome, adjustedHourlyRate));
    }

    /**
     * The pre-save hook: looks up the owner's hourly rate and recalculates;
     * fails with "User not found", setting nothing, when the owner is absent.
     */
    method PreSave(hourlyRates: map<UserId, real>) returns (outcome: SaveOutcome)
      modifies this`derived
      ensures outcome == (if user in hourlyRates then Saved else UserNotFound)
      ensures outcome == UserNotFound ==> derived == old(derived)
      ensures outcome == Saved ==> derived == Some(Derive(hoursWorked, cashTips, cardTips, hourlyRates[user]))
    {
      if user !in hourlyRates {
        return UserNotFound;
      }
      Recalculate(hourlyRates[user]);
      outcome := Saved;
    }
  }
}
