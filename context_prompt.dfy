/**
 * The context form of the frontend: submitting checks that no field is
 * blank, then hands the trimmed company and role and the comma-separated
 * interests, trimmed and without empty entries, to the page.
 */
module ContextPrompt {
  import opened Wrappers
  import opened Text
  import opened Session

  /** The three text fields of the form. */
  datatype Form = Form(company: string, role: string, interests: string)

  /** The form's state after a submit: its error text, whether it is shown, and what it handed on. */
  datatype SubmitOutcome = SubmitOutcome(error: string, show: bool, submitted: Option<Context>)

  const FillAllFields := "Please fill in all fields."

  /** The pieces trimmed, in order. */
  function TrimAll(pieces: seq<string>): (r: seq<string>)
    ensures |r| == |pieces| && forall k | 0 <= k < |r| :: r[k] == Trim(pieces[k])
  {
    seq(|pieces|, k requires 0 <= k < |pieces| => Trim(pieces[k]))
  }

  /** The non-empty strings, in order (`filter(Boolean)`). */
  function NonEmpty(xs: seq<string>): seq<string> {
    if xs == [] then []
    else NonEmpty(xs[..|xs| - 1]) + (if xs[|xs| - 1] != "" then [xs[|xs| - 1]] else [])
  }

  /** `interests.split(",").map(i => i.trim()).filter(Boolean)`. */
  function Interests(field: string): seq<string> {
    NonEmpty(TrimAll(Split(field, ',')))
  }

  /**
   * `handleSubmit`: a blank field sets the error and keeps the form;
   * otherwise the error is cleared, the form hidden and the normalised
   * context handed on once.
   */
  function HandleSubmit(form: Form, show: bool): (r: SubmitOutcome)
    ensures r.submitted.None? <==> IsBlank(form.company) || IsBlank(form.role) || IsBlank(form.interests)
    ensures r.submitted.None? ==> r.error == FillAllFields && r.show == show
    ensures r.submitted.Some? ==> r.error == "" && !r.show
    ensures r.submitted.Some? ==>
      r.submitted.value == Context(Trim(form.company), Trim(form.role), Interests(form.interests))
  {
    TrimEmptyIffBlank(form.company);
    TrimEmptyIffBlank(form.role);
    TrimEmptyIffBlank(form.interests);
    if Trim(form.company) == "" || Trim(form.role) == "" || Trim(form.interests) == "" then
      SubmitOutcome(FillAllFields, show, None)
    else
      SubmitOutcome("", false, Some(Context(Trim(form.company), Trim(form.role), Interests(form.interests))))
  }

  lemma {:induction false} NonEmptyProperties(xs: seq<string>)
    ensures |NonEmpty(xs)| <= |xs|
    ensures forall k | 0 <= k < |NonEmpty(xs)| :: NonEmpty(xs)[k] != ""
    ensures forall x :: x in NonEmpty(xs) <==> x in xs && x != ""
    ensures (forall k | 0 <= k < |xs| :: xs[k] != "") ==> NonEmpty(xs) == xs
    ensures (forall k | 0 <= k < |xs| :: xs[k] == "") ==> NonEmpty(xs) == []
  {
    NonEmptyMembers(xs);
    if forall k | 0 <= k < |xs| :: xs[k] != "" {
      NonEmptyKeepsAll(xs);
    }
    if forall k | 0 <= k < |xs| :: xs[k] == "" {
      NonEmptyDropsAll(xs);
    }
  }

  lemma {:induction false} NonEmptyMembers(xs: seq<string>)
    ensures |NonEmpty(xs)| <= |xs|
    ensures forall k | 0 <= k < |NonEmpty(xs)| :: NonEmpty(xs)[k] != ""
    ensures forall x :: x in NonEmpty(xs) <==> x in xs && x != ""
  {
    if xs != [] {
      var init, last := xs[..|xs| - 1], xs[|xs| - 1];
      NonEmptyMembers(init);
      assert xs == init + [last];
      if last != "" {
        assert NonEmpty(xs) == NonEmpty(init) + [last];
      } else {
        assert NonEmpty(xs) == NonEmpty(init);
      }
    }
  }

  lemma {:induction false} NonEmptyKeepsAll(xs: seq<string>)
    requires forall k | 0 <= k < |xs| :: xs[k] != ""
    ensures NonEmpty(xs) == xs
  {
    if xs != [] {
      var init := xs[..|xs| - 1];
      NonEmptyKeepsAll(init);
      assert xs == init + [xs[|xs| - 1]];
    }
  }

  lemma {:induction false} NonEmptyDropsAll(xs: seq<string>)
    requires forall k | 0 <= k < |xs| :: xs[k] == ""
    ensures NonEmpty(xs) == []
  {
    if xs != [] {
      NonEmptyDropsAll(xs[..|xs| - 1]);
    }
  }

  /** Never more interests than the commas plus one. */
  lemma InterestsCount(field: string)
    ensures |Interests(field)| <= Count(field, ',') + 1
  {
    SplitLength(field, ',');
    NonEmptyMembers(TrimAll(Split(field, ',')));
  }

  /**
   * The interests are exactly the non-empty trimmed comma-separated
   * pieces, each without outer whitespace.
   */
  lemma InterestsAreTrimmedPieces(field: string)
    ensures forall x :: x in Interests(field) <==> x != "" && x in TrimAll(Split(field, ','))
    ensures forall k | 0 <= k < |Interests(field)| ::
      Interests(field)[k] != "" && Trim(Interests(field)[k]) == Interests(field)[k]
  {
    var trimmed := TrimAll(Split(field, ','));
    var r := NonEmpty(trimmed);
    NonEmptyMembers(trimmed);
    TrimmedStayTrimmed(Split(field, ','));
    forall k | 0 <= k < |r|
      ensures Trim(r[k]) == r[k]
    {
      assert r[k] in trimmed;
    }
  }

  lemma TrimmedStayTrimmed(pieces: seq<string>)
    ensures forall x | x in TrimAll(pieces) :: Trim(x) == x
  {
    forall x | x in TrimAll(pieces) ensures Trim(x) == x {
      var j :| 0 <= j < |pieces| && TrimAll(pieces)[j] == x;
      TrimIdempotent(pieces[j]);
    }
  }

  /** When no piece is blank, every piece is kept, trimmed, in original order. */
  lemma InterestsKeepOrder(field: string)
    requires forall k | 0 <= k < |Split(field, ',')| :: !IsBlank(Split(field, ',')[k])
    ensures Interests(field) == TrimAll(Split(field, ','))
  {
    var pieces := Split(field, ',');
    forall k | 0 <= k < |pieces|
      ensures TrimAll(pieces)[k] != ""
    {
      TrimEmptyIffBlank(pieces[k]);
    }
    NonEmptyKeepsAll(TrimAll(pieces));
  }

  /** A field of commas only, at least one, passes the blank check yet gives no interests. */
  lemma {:induction false} OnlyCommas(field: string)
    requires field != [] && forall k | 0 <= k < |field| :: field[k] == ','
    ensures !IsBlank(field)
    ensures Interests(field) == []
  {
    assert !IsSpace(field[0]);
    var pieces := Split(field, ',');
    CommaPiecesEmpty(field);
    var trimmed := TrimAll(pieces);
    forall k | 0 <= k < |trimmed| ensures trimmed[k] == "" {
      assert pieces[k] == "";
      TrimEmptyIffBlank(pieces[k]);
    }
    NonEmptyDropsAll(trimmed);
  }

  /** Splitting commas on commas gives only empty pieces. */
  lemma {:induction false} CommaPiecesEmpty(field: string)
    requires forall k | 0 <= k < |field| :: field[k] == ','
    ensures forall k | 0 <= k < |Split(field, ',')| :: Split(field, ',')[k] == ""
  {
    if field != [] {
      CommaPiecesEmpty(field[1..]);
    }
  }
}
