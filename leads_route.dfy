/** The lead-capture endpoint: a visitor leaves a name and an email; the
    request is validated, both values are normalised, and the lead is upserted
    into the `leads` table keyed by email. */
module LeadsRoute {
  import opened Strings
  import opened Wrappers

  /** The request body; either field may be missing. */
  datatype LeadRequest = LeadRequest(name: Option<string>, email: Option<string>)

  datatype ResponseBody = ErrorBody(message: string) | SuccessBody

  datatype Response = Response(status: nat, body: ResponseBody)

  const InvalidLeadMessage: string := "Name and valid email are required"
  const SaveFailedMessage: string := "Failed to save lead"

  /** `v?.trim()` is truthy: present and not all whitespace. */
  predicate Present(v: Option<string>) {
    v.Some? && HasNonWhitespace(v.value)
  }

  /** The validation guard, negated: a name, an email, and an "@" in the email. */
  predicate ValidLead(req: LeadRequest) {
    Present(req.name) && Present(req.email) && '@' in req.email.value
  }

  /** The stored name: `name.trim()`. */
  function NormName(name: string): string {
    Trim(name)
  }

  /** The stored key: `email.trim().toLowerCase()`. */
  function NormEmail(email: string): string {
    ToLower(Trim(email))
  }

  /** The response `POST` sends, given whether the store reports an error. */
  function Respond(req: LeadRequest, storeFails: bool): Response
  {
    if !ValidLead(req) then Response(400, ErrorBody(InvalidLeadMessage))
    else if storeFails then Response(500, ErrorBody(SaveFailedMessage))
    else Response(200, SuccessBody)
  }

  /** The table after `POST`: the normalised row upserted on success,
      unchanged after a rejected request or a store error. */
  function Stored(rows: map<string, string>, req: LeadRequest, storeFails: bool): map<string, string>
  {
    if ValidLead(req) && !storeFails then rows[NormEmail(req.email.value) := NormName(req.name.value)]
    else rows
  }

  /** A row as the endpoint writes it: a trimmed, lower-case email holding an
      "@", and a trimmed, non-empty name. */
  predicate NormalisedRow(email: string, name: string) {
    NormalisedKey(email) && TrimmedNonEmpty(name)
  }

  predicate TrimmedNonEmpty(s: string) {
    s != [] && !IsWhitespace(s[0]) && !IsWhitespace(s[|s| - 1])
  }

  predicate NormalisedKey(email: string) {
    && TrimmedNonEmpty(email)
    && '@' in email
    && (forall k :: 0 <= k < |email| ==> !('A' <= email[k] <= 'Z'))
  }

  predicate AllRowsNormalised(rows: map<string, string>) {
    forall e :: e in rows ==> NormalisedRow(e, rows[e])
  }

  lemma UpsertKeepsNormalised(rows: map<string, string>, email: string, name: string)
    requires AllRowsNormalised(rows) && NormalisedRow(email, name)
    ensures AllRowsNormalised(rows[email := name])
  {
  }

  /** `POST` only ever writes normalised rows, so a table holding only
      normalised rows keeps holding only normalised rows. */
  lemma StoredKeepsNormalised(rows: map<string, string>, req: LeadRequest, storeFails: bool)
    requires AllRowsNormalised(rows)
    ensures AllRowsNormalised(Stored(rows, req, storeFails))
  {
    if ValidLead(req) && !storeFails {
      NormalisedOutput(req);
      UpsertKeepsNormalised(rows, NormEmail(req.email.value), NormName(req.name.value));
    }
  }

  /** The `leads` table, keyed by email. */
  class LeadsTable {
    var rows: map<string, string>

    constructor()
      ensures rows == map[]
    {
      rows := map[];
    }

    /** `POST /api/leads`. The store's success or failure is `storeFails`. */
    method Post(req: LeadRequest, storeFails: bool) returns (resp: Response)
      modifies this
      ensures resp == Respond(req, storeFails)
      ensures rows == Stored(old(rows), req, storeFails)
    {
      if !ValidLead(req) {
        return Response(400, ErrorBody(InvalidLeadMessage));
      }
      var name := NormName(req.name.value);
      var email := NormEmail(req.email.value);
      if storeFails {
        return Response(500, ErrorBody(SaveFailedMessage));
      }
      assert Stored(rows, req, storeFails) == rows[email := name];
      rows := rows[email := name];
      resp := Response(200, SuccessBody);
    }
  }

  // ---- properties ----

  /** The status mapping: 400 with the validation message exactly when the
      name is missing or blank, or the email is missing, blank or has no "@";
      otherwise 500 with the save-failure message exactly when the store
      fails; otherwise 200 with `{success: true}`. */
  lemma LeadResponseSpec(req: LeadRequest, storeFails: bool)
    ensures Respond(req, storeFails).status == 400 <==>
              || req.name.None? || AllWhitespace(req.name.value)
              || req.email.None? || AllWhitespace(req.email.value)
              || '@' !in req.email.value
    ensures Respond(req, storeFails).status == 400 ==> Respond(req, storeFails).body == ErrorBody(InvalidLeadMessage)
    ensures Respond(req, storeFails).status == 500 <==> ValidLead(req) && storeFails
    ensures Respond(req, storeFails).status == 500 ==> Respond(req, storeFails).body == ErrorBody(SaveFailedMessage)
    ensures Respond(req, storeFails).status == 200 <==> ValidLead(req) && !storeFails
    ensures Respond(req, storeFails).status == 200 ==> Respond(req, storeFails).body == SuccessBody
  {
  }

  /** Only a 200 changes the table, and then only at the normalised email:
      that key now holds the trimmed name and every other row is as before. */
  lemma UpsertSpec(rows: map<string, string>, req: LeadRequest, storeFails: bool)
    ensures Respond(req, storeFails).status != 200 ==> Stored(rows, req, storeFails) == rows
    ensures Respond(req, storeFails).status == 200 ==>
              var r := Stored(rows, req, storeFails);
              var key := NormEmail(req.email.value);
              && r.Keys == rows.Keys + {key}
              && r[key] == NormName(req.name.value)
              && forall e :: e in rows && e != key ==> r[e] == rows[e]
  {
    if ValidLead(req) && !storeFails {
      var key := NormEmail(req.email.value);
      var r := rows[key := NormName(req.name.value)];
      assert Stored(rows, req, storeFails) == r;
      assert r.Keys == rows.Keys + {key};
    }
  }

  lemma NoAtInWhitespace(w: string)
    requires AllWhitespace(w)
    ensures '@' !in w
  {
  }

  lemma TrimmedAtKeepsAt(s: string, i: int, r: string)
    requires '@' in s && TrimmedAt(s, i, r)
    ensures '@' in r
  {
    assert s == s[..i] + r + s[i + |r|..];
    NoAtInWhitespace(s[..i]);
    NoAtInWhitespace(s[i + |r|..]);
  }

  /** Trimming keeps an "@": `trim` removes only whitespace. */
  lemma TrimKeepsAt(s: string)
    requires '@' in s
    ensures '@' in Trim(s)
  {
    var r := Trim(s);
    var i :| TrimmedAt(s, i, r);
    TrimmedAtKeepsAt(s, i, r);
  }

  /** Lower-casing neither creates nor removes whitespace and leaves no
      upper-case ASCII letter. */
  lemma LowerCharFacts(c: char)
    ensures IsWhitespace(LowerChar(c)) == IsWhitespace(c)
    ensures !('A' <= LowerChar(c) <= 'Z')
    ensures LowerChar(LowerChar(c)) == LowerChar(c)
  {
  }

  /** Lower-casing a trimmed text holding an "@" gives a normalised key. */
  lemma LowerKey(t: string)
    requires TrimmedNonEmpty(t) && '@' in t
    ensures NormalisedKey(ToLower(t))
  {
    var key := ToLower(t);
    var k :| 0 <= k < |t| && t[k] == '@';
    assert key[k] == '@';
    LowerCharFacts(t[0]);
    LowerCharFacts(t[|t| - 1]);
    forall j | 0 <= j < |key|
      ensures !('A' <= key[j] <= 'Z')
    {
      LowerCharFacts(t[j]);
    }
  }

  /** The key of a valid email is a normalised one. */
  lemma NormalisedEmail(email: string)
    requires HasNonWhitespace(email) && '@' in email
    ensures NormalisedKey(NormEmail(email))
  {
    var t := Trim(email);
    TrimKeepsAt(email);
    assert TrimmedNonEmpty(t);
    LowerKey(t);
  }

  /** A valid request yields a normalised row. */
  lemma NormalisedOutput(req: LeadRequest)
    requires ValidLead(req)
    ensures NormalisedRow(NormEmail(req.email.value), NormName(req.name.value))
  {
    NormalisedEmail(req.email.value);
    assert TrimmedNonEmpty(Trim(req.name.value));
  }

  /** Two emails give the same key exactly when, once trimmed, they differ
      only in letter case. */
  lemma SameKeyIff(e1: string, e2: string)
    ensures NormEmail(e1) == NormEmail(e2) <==> EqualIgnoringCase(Trim(e1), Trim(e2))
  {
    ToLowerEqualIff(Trim(e1), Trim(e2));
  }

  /** Whitespace around an email never makes a second key. */
  lemma SurroundingWhitespaceSameKey(w1: string, e: string, w2: string)
    requires AllWhitespace(w1) && AllWhitespace(w2)
    ensures NormEmail(w1 + e + w2) == NormEmail(e)
  {
    TrimIgnoresSurroundingWhitespace(w1, e, w2);
  }

  /** Normalising a stored key again gives the same key. */
  lemma NormEmailIdempotent(e: string)
    ensures NormEmail(NormEmail(e)) == NormEmail(e)
  {
    var t := Trim(e);
    var key := ToLower(t);
    if key != [] {
      LowerCharFacts(t[0]);
      LowerCharFacts(t[|t| - 1]);
    }
    TrimOfTrimmed(key);
    forall j | 0 <= j < |key|
      ensures LowerChar(key[j]) == key[j]
    {
      LowerCharFacts(t[j]);
    }
    assert ToLower(key) == key;
  }

  lemma UpsertTwice(rows: map<string, string>, key: string, older: string, newer: string)
    ensures rows[key := older][key := newer] == rows[key := newer]
    ensures |rows[key := newer].Keys| <= |rows.Keys| + 1
  {
    assert rows[key := newer].Keys == rows.Keys + {key};
    if key in rows {
      assert rows.Keys + {key} == rows.Keys;
    }
  }

  /** Submitting twice with emails that differ only in case or surrounding
      whitespace leaves one row for that address, holding the latest name. */
  lemma ResubmitKeepsOneRow(rows: map<string, string>, first: LeadRequest, second: LeadRequest)
    requires ValidLead(first) && ValidLead(second)
    requires EqualIgnoringCase(Trim(first.email.value), Trim(second.email.value))
    ensures var after := Stored(Stored(rows, first, false), second, false);
      && after == rows[NormEmail(second.email.value) := NormName(second.name.value)]
      && |after.Keys| <= |rows.Keys| + 1
  {
    SameKeyIff(first.email.value, second.email.value);
    var key := NormEmail(second.email.value);
    var once := Stored(rows, first, false);
    assert once == rows[key := NormName(first.name.value)];
    assert Stored(once, second, false) == once[key := NormName(second.name.value)];
    UpsertTwice(rows, key, NormName(first.name.value), NormName(second.name.value));
  }
}
