/**
 * The shift routes that change stored shifts: create, update (partial merge of
 * the supplied fields, then recalculation) and delete, each behind the
 * "shift not found" and "not authorized" checks.
 */
module ShiftRoutes {
  import opened Common
  import opened ShiftModel

  /** The fields of an update request; None is a field left out of the body. */
  datatype UpdateBody = UpdateBody(date: Option<Date>, hoursWorked: Option<real>, cashTips: Option<real>, cardTips: Option<real>)

  /** The `$set` document of an update: a field is Some exactly when it is overwritten. */
  datatype ShiftFields = ShiftFields(date: Option<Date>, hoursWorked: Option<real>, cashTips: Option<real>, cardTips: Option<real>)

  /** JavaScript truthiness of a number that may be absent: present and not 0. */
  predicate Truthy(v: Option<real>) {
    v.Some? && v.value != 0.0
  }

  /** The fields an update body overwrites: hours only when truthy, tips whenever present, the day when given. */
  function RequestedFields(body: UpdateBody): ShiftFields {
    ShiftFields(
      body.date,
      if Truthy(body.hoursWorked) then body.hoursWorked else None,
      body.cashTips,
      body.cardTips)
  }

  /** Builds the `$set` document one field at a time. */
  method BuildShiftFields(body: UpdateBody) returns (shiftFields: ShiftFields)
    ensures shiftFields == RequestedFields(body)
    ensures shiftFields.hoursWorked.Some? <==> Truthy(body.hoursWorked)
    ensures body.hoursWorked == Some(0.0) ==> shiftFields.hoursWorked == None
    ensures body.cashTips == Some(0.0) ==> shiftFields.cashTips == Some(0.0)
    ensures body.cardTips == Some(0.0) ==> shiftFields.cardTips == Some(0.0)
  {
    shiftFields := ShiftFields(None, None, None, None);
    if body.date.Some? {
      shiftFields := shiftFields.(date := body.date);
    }
    if Truthy(body.hoursWorked) {
      shiftFields := shiftFields.(hoursWorked := body.hoursWorked);
    }
    if body.cashTips.Some? {
      shiftFields := shiftFields.(cashTips := body.cashTips);
    }
    if body.cardTips.Some? {
      shiftFields := shiftFields.(cardTips := body.cardTips);
    }
  }

  /** The value of a field after `$set`: the new value when one is given, the stored one otherwise. */
  function SetOr<T>(update: Option<T>, stored: T): (v: T)
    ensures update.Some? ==> v == update.value
    ensures update.None? ==> v == stored
  {
    match update
    case Some(x) => x
    case None => stored
  }

  /** `doc` after `$set` with `fields`: only the raw fields given change; the calculated ones are left stale. */
  function ApplyFields(doc: ShiftDoc, fields: ShiftFields): ShiftDoc {
    doc.(
      date := SetOr(fields.date, doc.date),
      hoursWorked := SetOr(fields.hoursWorked, doc.hoursWorked),
      cashTips := SetOr(fields.cashTips, doc.cashTips),
      cardTips := SetOr(fields.cardTips, doc.cardTips))
  }

  /** The stored shift after a successful update with `body`, at the owner's rate `hourlyRate`. */
  function UpdatedDoc(doc: ShiftDoc, body: UpdateBody, hourlyRate: real): ShiftDoc {
    Recalculated(ApplyFields(doc, RequestedFields(body)), hourlyRate)
  }

  /**
   * The merge rules of an update, stated on the stored shift: zero hours are
   * ignored, zero tips are applied, the owner and creation time never change,
   * and the calculated fields match the merged raw fields.
   */
  lemma UpdateMergeRules(doc: ShiftDoc, body: UpdateBody, hourlyRate: real)
    ensures var r := UpdatedDoc(doc, body, hourlyRate);
            r.user == doc.user && r.createdAt == doc.createdAt &&
            r.date == (if body.date.Some? then body.date.value else doc.date) &&
            r.hoursWorked == (if Truthy(body.hoursWorked) then body.hoursWorked.value else doc.hoursWorked) &&
            r.cashTips == (if body.cashTips.Some? then body.cashTips.value else doc.cashTips) &&
            r.cardTips == (if body.cardTips.Some? then body.cardTips.value else doc.cardTips) &&
            Consistent(r, hourlyRate) &&
            r.derived.totalIncome == r.hoursWorked * hourlyRate + r.cashTips + r.cardTips
  {
  }

  /** The result of the not-found and ownership checks shared by update and delete. */
  datatype Access = Missing | Forbidden | Granted(doc: ShiftDoc)

  /** Looks at the shift found under the requested id (if any) and the caller. */
  function Authorize(found: Option<ShiftDoc>, caller: UserId): (a: Access)
    ensures a.Missing? <==> found.None?
    ensures a.Forbidden? <==> found.Some? && found.value.user != caller
    ensures a.Granted? <==> found.Some? && found.value.user == caller
    ensures a.Granted? ==> a.doc == found.value
  {
    match found
    case None => Missing
    case Some(doc) => if doc.user != caller then Forbidden else Granted(doc)
  }

  function Find(docs: map<ShiftId, ShiftDoc>, id: ShiftId): (found: Option<ShiftDoc>)
    ensures found.Some? <==> id in docs
    ensures found.Some? ==> found.value == docs[id]
  {
    if id in docs then Some(docs[id]) else None
  }

  datatype Response = ShiftNotFound | NotAuthorized | ServerError | ShiftSaved(shift: ShiftDoc) | Removed

  /** The stored shifts of every user, by id. */
  class ShiftStore {
    var docs: map<ShiftId, ShiftDoc>

    constructor ()
      ensures docs == map[]
    {
      docs := map[];
    }

    /**
     * Adding a shift: the document is built with the tips given, the pre-save
     * hook computes its calculated fields, and it is stored only if the hook
     * found the owner.
     */
    method Create(id: ShiftId, caller: UserId, date: Date, hoursWorked: real, cashTips: real, cardTips: real,
                  now: Timestamp, hourlyRates: map<UserId, real>) returns (r: Response)
      requires id !in docs
      modifies this
      ensures caller !in hourlyRates ==> r == ServerError && docs == old(docs)
      ensures caller in hourlyRates ==>
                var doc := ShiftDoc(caller, date, hoursWorked, cashTips, cardTips,
                                    Derive(hoursWorked, cashTips, cardTips, hourlyRates[caller]), now);
                r == ShiftSaved(doc) && docs == old(docs)[id := doc]
    {
      var shift := new Shift(caller, date, hoursWorked, Some(cashTips), Some(cardTips), now);
      var outcome := shift.PreSave(hourlyRates);
      if outcome == UserNotFound {
        return ServerError;
      }
      var doc := shift.Snapshot();
      docs := docs[id := doc];
      r := ShiftSaved(doc);
    }

    /**
     * Updating a shift. The merged raw fields are written before the owner's
     * rate is looked up, so when the owner is missing the stored shift keeps
     * them with its old calculated fields and the request fails.
     */
    method Update(id: ShiftId, caller: UserId, body: UpdateBody, hourlyRates: map<UserId, real>) returns (r: Response)
      modifies this
      ensures id !in old(docs) ==> r == ShiftNotFound && docs == old(docs)
      ensures id in old(docs) && old(docs)[id].user != caller ==> r == NotAuthorized && docs == old(docs)
      ensures id in old(docs) && old(docs)[id].user == caller && caller !in hourlyRates ==>
                r == ServerError && docs == old(docs)[id := ApplyFields(old(docs)[id], RequestedFields(body))]
      ensures id in old(docs) && old(docs)[id].user == caller && caller in hourlyRates ==>
                var doc := UpdatedDoc(old(docs)[id], body, hourlyRates[caller]);
                r == ShiftSaved(doc) && docs == old(docs)[id := doc]
    {
      var shiftFields := BuildShiftFields(body);
      var access := Authorize(Find(docs, id), caller);
      if access.Missing? {
        return ShiftNotFound;
      }
      if access.Forbidden? {
        return NotAuthorized;
      }
      var merged := ApplyFields(access.doc, shiftFields);
      docs := docs[id := merged];
      if caller !in hourlyRates {
        return ServerError;
      }
      var shift := new Shift.Load(merged);
      shift.Recalculate(hourlyRates[caller]);
      // Saving runs the hook again, with the rate of the owner, who is the caller.
      var outcome := shift.PreSave(hourlyRates);
      assert outcome == Saved;
      var doc := shift.Snapshot();
      docs := docs[id := doc];
      r := ShiftSaved(doc);
    }

    /** Deleting a shift: removes it when it exists and the caller owns it. */
    method Delete(id: ShiftId, caller: UserId) returns (r: Response)
      modifies this
      ensures id !in old(docs) ==> r == ShiftNotFound && docs == old(docs)
      ensures id in old(docs) && old(docs)[id].user != caller ==> r == NotAuthorized && docs == old(docs)
      ensures id in old(docs) && old(docs)[id].user == caller ==> r == Removed && docs == old(docs) - {id}
    {
      var access := Authorize(Find(docs, id), caller);
      if access.Missing? {
        return ShiftNotFound;
      }
      if access.Forbidden? {
        return NotAuthorized;
      }
      docs := docs - {id};
      r := Removed;
    }
  }
}
