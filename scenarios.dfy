/** End-to-end scenarios of the form, from a fresh form to the insert. */
module Scenarios {
  import opened Listing
  import opened ListingFormHook

  /** Reads "25" as 25 and anything else as NaN. */
  function ParseTwentyFive(s: string): JsNumber {
    if s == "25" then Finite(25.0) else NaN
  }

  /** The one file of the scenarios below, which the store keeps at "u1/171234-a.png". */
  function PhotoA(): SelectedFile {
    SelectedFile("a.png", "blob:a", 171234, Stored("u1/171234-a.png"))
  }

  /** What intake makes of that file for user "u1". */
  lemma PhotoAIntake(publicUrl: string -> string)
    ensures AcceptedFiles([PhotoA()], 0) == [PhotoA()]
    ensures SuccessUrls([PhotoA()], publicUrl) == [publicUrl("u1/171234-a.png")]
    ensures PreviewsOf([PhotoA()]) == ["blob:a"]
    ensures UploadNotices([PhotoA()]) == []
    ensures UploadKeys("u1", [PhotoA()]) == ["u1/171234-a.png"]
  {
    assert [PhotoA()][..0] == [];
    PhotoAKey();
  }

  lemma PhotoAKey()
    ensures StorageKey("u1", PhotoA()) == "u1/171234-a.png"
  {
    StampDigits();
  }

  lemma StampDigits()
    ensures Decimal(171234) == "171234"
  {
    assert Decimal(1) == "1";
    assert Decimal(17) == "17";
    assert Decimal(171) == "171";
    assert Decimal(1712) == "1712";
    assert Decimal(17123) == "17123";
  }

  /** User "u1" adds that file, sells it for "25" in "books" and submits; the
      store accepts the row. The row carries the price 25, the one public URL
      and no trade preferences, and the form navigates to the user's listings. */
  method SaleEndToEnd(publicUrl: string -> string)
    returns (sent: seq<string>, record: Option<ListingRecord>, notice: Notice, route: Option<string>)
    ensures sent == ["u1/171234-a.png"]
    ensures record == Some(ListingRecord(
      userId := "u1", title := "", description := "", price := Some(Finite(25.0)),
      category := "books", location := "", photos := [publicUrl("u1/171234-a.png")],
      listingType := "sale", tradePreferences := None, boosted := false, isActive := true))
    ensures notice == ListingCreated && route == Some(LISTINGS_ROUTE)
  {
    var form := new ListingForm(Some(Profile("u1")));
    PhotoAIntake(publicUrl);
    var notices;
    ghost var uploading;
    notices, sent, uploading := form.HandlePhotoChange([PhotoA()], publicUrl);
    form.price := "25";
    form.category := "books";
    ghost var busy;
    notice, record, route, busy := form.HandleSubmit(ParseTwentyFive, InsertOk);
  }

  /** The same draft, but the store answers "network error": the form is no
      longer busy, the draft keeps its fields, and the notice shows the
      store's message; nothing navigates. */
  method InsertErrorEndToEnd(publicUrl: string -> string)
    returns (notice: Notice, route: Option<string>, busy: bool, draft: Draft)
    ensures notice == CreationError("network error") && route == None && !busy
    ensures draft == Draft("", "", "25", "books", "", [publicUrl("u1/171234-a.png")], "sale", "")
  {
    var form := new ListingForm(Some(Profile("u1")));
    PhotoAIntake(publicUrl);
    var notices, sent;
    ghost var uploading;
    notices, sent, uploading := form.HandlePhotoChange([PhotoA()], publicUrl);
    assert form.photos == [publicUrl("u1/171234-a.png")];
    form.price := "25";
    form.category := "books";
    ghost var before := form.Snapshot();
    assert before == Draft("", "", "25", "books", "", [publicUrl("u1/171234-a.png")], "sale", "");
    assert SubmitGuard(form.profile, before, ParseTwentyFive) == None;
    assert CreationErrorText("network error") == "network error";
    var record;
    ghost var busyAtInsert;
    notice, record, route, busyAtInsert := form.HandleSubmit(ParseTwentyFive, InsertError("network error"));
    busy, draft := form.isSubmitting, form.Snapshot();
  }
}
