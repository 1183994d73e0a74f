/**
 * The therapist-search page: search terms assembled from the filter form,
 * the chips that toggle a modality or a specialty, the site-restricted
 * search string, and the English outreach note built from the same filters.
 */
module Find {
  import opened Text

  /** A whole number JavaScript holds exactly and prints in plain digits:
      at most 2^53 - 1 in magnitude. */
  type SafeInt = i: int | -9007199254740991 <= i <= 9007199254740991

  /** The fee box: empty, or a whole number of dollars. */
  datatype Fee = Blank | Amount(n: SafeInt)

  datatype Filters = Filters(
    city: string,
    telehealth: bool,
    insurance: string,
    maxFee: Fee,
    modalities: seq<string>,
    specialties: seq<string>,
    language: string)

  /** `if (maxFee)`: the empty box and 0 are both falsy. */
  predicate FeeGiven(fee: Fee) {
    fee.Amount? && fee.n != 0
  }

  /** The segments `buildTerms` pushes, in its fixed order, each only when
      its field is truthy. */
  function Segments(f: Filters): seq<string> {
    (if f.city != "" then [f.city] else [])
    + (if f.telehealth then ["telehealth"] else [])
    + (if f.insurance != "" then ["insurance " + f.insurance] else [])
    + (if FeeGiven(f.maxFee) then ["fee <= " + IntToString(f.maxFee.n)] else [])
    + (if |f.modalities| > 0 then [Join(f.modalities, " ")] else [])
    + (if |f.specialties| > 0 then [Join(f.specialties, " ")] else [])
    + (if f.language != "" then [f.language] else [])
  }

  /** `filter(Boolean)` on strings: the non-empty ones, in order. */
  function NonEmpty(parts: seq<string>): (r: seq<string>)
    ensures forall i :: 0 <= i < |r| ==> r[i] != ""
    ensures forall s :: s in r <==> s in parts && s != ""
    ensures |r| <= |parts|
  {
    if parts == [] then []
    else (if parts[0] != "" then [parts[0]] else []) + NonEmpty(parts[1..])
  }

  lemma {:induction false} NonEmptyAppend(a: seq<string>, b: seq<string>)
    ensures NonEmpty(a + b) == NonEmpty(a) + NonEmpty(b)
  {
    if a == [] {
      assert a + b == b;
    } else {
      assert (a + b)[0] == a[0];
      assert (a + b)[1..] == a[1..] + b;
      NonEmptyAppend(a[1..], b);
    }
  }

  /** A list with no empty string passes the filter unchanged. */
  lemma {:induction false} NonEmptyKeeps(parts: seq<string>)
    requires forall i :: 0 <= i < |parts| ==> parts[i] != ""
    ensures NonEmpty(parts) == parts
  {
    if parts != [] {
      NonEmptyKeeps(parts[1..]);
    }
  }

  /** A list of empty strings is filtered away entirely. */
  lemma {:induction false} NonEmptyAllBlank(parts: seq<string>)
    requires forall s :: s in parts ==> s == ""
    ensures NonEmpty(parts) == []
  {
    if parts != [] {
      assert parts[0] in parts;
      assert forall s :: s in parts[1..] ==> s in parts;
      NonEmptyAllBlank(parts[1..]);
    }
  }

  /** `buildTerms`. */
  function BuildTerms(f: Filters): string {
    Join(NonEmpty(Segments(f)), " ")
  }

  /** Joining non-empty pieces gives the empty string only when there are none. */
  lemma JoinNonEmpty(parts: seq<string>, sep: string)
    requires forall i :: 0 <= i < |parts| ==> parts[i] != ""
    ensures Join(parts, sep) == "" <==> parts == []
  {
    if parts != [] {
      JoinStartsWith(parts, sep);
    }
  }

  /** The terms are empty exactly when every filter is falsy: no city, no
      telehealth, no insurance, a blank or zero fee, and no modality,
      specialty or language that prints as anything. */
  lemma BuildTermsEmpty(f: Filters)
    ensures BuildTerms(f) == "" <==>
      && f.city == "" && !f.telehealth && f.insurance == "" && !FeeGiven(f.maxFee)
      && Join(f.modalities, " ") == "" && Join(f.specialties, " ") == "" && f.language == ""
  {
    var segs := Segments(f);
    var kept := NonEmpty(segs);
    JoinNonEmpty(kept, " ");
    var falsy := && f.city == "" && !f.telehealth && f.insurance == "" && !FeeGiven(f.maxFee)
      && Join(f.modalities, " ") == "" && Join(f.specialties, " ") == "" && f.language == "";
    if falsy {
      assert forall s :: s in segs ==> s == "";
      NonEmptyAllBlank(segs);
    } else if f.city != "" {
      assert f.city in kept;
    } else if f.telehealth {
      assert "telehealth" in kept;
    } else if f.insurance != "" {
      assert "insurance " + f.insurance in kept;
    } else if FeeGiven(f.maxFee) {
      assert "fee <= " + IntToString(f.maxFee.n) in kept;
    } else if Join(f.modalities, " ") != "" {
      assert Join(f.modalities, " ") in kept;
    } else if Join(f.specialties, " ") != "" {
      assert Join(f.specialties, " ") in kept;
    } else {
      assert f.language in kept;
    }
  }

  /** No empty segment reaches the result, and each truthy field's segment does. */
  lemma SegmentsPresent(f: Filters)
    ensures forall s :: s in NonEmpty(Segments(f)) ==> s != ""
    ensures f.city != "" ==> f.city in NonEmpty(Segments(f))
    ensures f.telehealth ==> "telehealth" in NonEmpty(Segments(f))
    ensures f.insurance != "" ==> "insurance " + f.insurance in NonEmpty(Segments(f))
    ensures FeeGiven(f.maxFee) ==> "fee <= " + IntToString(f.maxFee.n) in NonEmpty(Segments(f))
    ensures Join(f.modalities, " ") != "" ==> Join(f.modalities, " ") in NonEmpty(Segments(f))
    ensures Join(f.specialties, " ") != "" ==> Join(f.specialties, " ") in NonEmpty(Segments(f))
    ensures f.language != "" ==> f.language in NonEmpty(Segments(f))
  {
    var segs := Segments(f);
    if f.city != "" {
      assert f.city in segs;
    }
    if f.telehealth {
      assert "telehealth" in segs;
    }
    if f.insurance != "" {
      assert "insurance " + f.insurance in segs;
    }
    if FeeGiven(f.maxFee) {
      assert "fee <= " + IntToString(f.maxFee.n) in segs;
    }
    if Join(f.modalities, " ") != "" {
      assert Join(f.modalities, " ") in segs;
    }
    if Join(f.specialties, " ") != "" {
      assert Join(f.specialties, " ") in segs;
    }
    if f.language != "" {
      assert f.language in segs;
    }
  }

  /** With every field given, the terms read in the fixed order: city,
      "telehealth", insurance, fee, modalities, specialties, language. */
  lemma BuildTermsOrder(f: Filters)
    requires f.city != "" && f.telehealth && f.insurance != "" && FeeGiven(f.maxFee)
    requires Join(f.modalities, " ") != "" && Join(f.specialties, " ") != "" && f.language != ""
    ensures BuildTerms(f) == Join([f.city, "telehealth", "insurance " + f.insurance, "fee <= " + IntToString(f.maxFee.n),
                                   Join(f.modalities, " "), Join(f.specialties, " "), f.language], " ")
  {
    var segs := Segments(f);
    assert |f.modalities| > 0 && |f.specialties| > 0;
    var seven := [f.city, "telehealth", "insurance " + f.insurance, "fee <= " + IntToString(f.maxFee.n),
                  Join(f.modalities, " "), Join(f.specialties, " "), f.language];
    assert segs == seven;
    NonEmptyKeeps(seven);
  }

  /** A fee of 0 searches exactly as an empty fee box. */
  lemma ZeroFeeIsBlank(f: Filters)
    ensures BuildTerms(f.(maxFee := Amount(0))) == BuildTerms(f.(maxFee := Blank))
  {
  }

  /** `arr.filter(x => x !== item)`. */
  function Remove(arr: seq<string>, item: string): (r: seq<string>)
    ensures item !in r
    ensures forall x :: x in r <==> x in arr && x != item
    ensures multiset(r) == multiset(arr)[item := 0]
  {
    if arr == [] then []
    else
      var rest := Remove(arr[1..], item);
      assert arr == [arr[0]] + arr[1..];
      if arr[0] == item then rest else [arr[0]] + rest
  }

  lemma {:induction false} RemoveAppend(a: seq<string>, b: seq<string>, item: string)
    ensures Remove(a + b, item) == Remove(a, item) + Remove(b, item)
  {
    if a == [] {
      assert a + b == b;
    } else {
      assert (a + b)[0] == a[0];
      assert (a + b)[1..] == a[1..] + b;
      RemoveAppend(a[1..], b, item);
    }
  }

  /** Removing what is not there changes nothing. */
  lemma {:induction false} RemoveAbsent(arr: seq<string>, item: string)
    requires item !in arr
    ensures Remove(arr, item) == arr
  {
    if arr != [] {
      assert arr[0] != item;
      RemoveAbsent(arr[1..], item);
      assert [arr[0]] + arr[1..] == arr;
    }
  }

  /** `toggle`: an item that is chosen is removed, one that is not is added
      at the end. */
  function Toggle(arr: seq<string>, item: string): seq<string> {
    if item in arr then Remove(arr, item) else arr + [item]
  }

  /** After a toggle the item is chosen exactly when it was not; every other
      item keeps its membership and the chosen ones keep their order. */
  lemma ToggleSpec(arr: seq<string>, item: string)
    ensures item in Toggle(arr, item) <==> item !in arr
    ensures forall x :: x != item ==> (x in Toggle(arr, item) <==> x in arr)
    ensures item in arr ==> multiset(Toggle(arr, item)) == multiset(arr)[item := 0]
    ensures item !in arr ==> Toggle(arr, item) == arr + [item]
  {
  }

  /** Toggling an item that was not chosen, twice, gives back the list. */
  lemma ToggleTwiceAbsent(arr: seq<string>, item: string)
    requires item !in arr
    ensures Toggle(Toggle(arr, item), item) == arr
  {
    RemoveAppend(arr, [item], item);
    RemoveAbsent(arr, item);
    assert Remove([item], item) == [];
  }

  /** The site-restricted search string, before URL encoding. */
  function SearchQuery(domain: string, terms: string): (q: string)
    ensures StartsWith(q, "site:" + domain + " ")
    ensures EndsWith(q, " therapist " + terms)
  {
    StartsWithAppend("site:" + domain + " ", "therapist " + terms);
    EndsWithAppend("site:" + domain, " therapist " + terms);
    assert "site:" + domain + " " + ("therapist " + terms) == "site:" + domain + " therapist " + terms;
    assert "site:" + domain + (" therapist " + terms) == "site:" + domain + " therapist " + terms;
    "site:" + domain + " therapist " + terms
  }

  /** The domain and the terms can be read back out of the search string. */
  lemma SearchQueryParts(domain: string, terms: string)
    ensures SearchQuery(domain, terms)[5..5 + |domain|] == domain
    ensures SearchQuery(domain, terms)[|SearchQuery(domain, terms)| - |terms|..] == terms
  {
    var q := SearchQuery(domain, terms);
    assert q == "site:" + domain + (" therapist " + terms);
    assert q == ("site:" + domain + " therapist ") + terms;
  }

  const SearchPrefix := "https://www.google.com/search?q="

  /** The address opened for a directory; `encode` is `encodeURIComponent`. */
  function SearchUrl(domain: string, terms: string, encode: string -> string): (url: string)
    ensures StartsWith(url, SearchPrefix)
    ensures url[|SearchPrefix|..] == encode(SearchQuery(domain, terms))
  {
    StartsWithAppend(SearchPrefix, encode(SearchQuery(domain, terms)));
    SearchPrefix + encode(SearchQuery(domain, terms))
  }

  /** `launch(domain)`: the filters' terms searched on one directory site. */
  function Launch(f: Filters, domain: string, encode: string -> string): (url: string)
    ensures StartsWith(url, SearchPrefix)
    ensures url[|SearchPrefix|..] == encode(SearchQuery(domain, BuildTerms(f)))
  {
    SearchUrl(domain, BuildTerms(f), encode)
  }

  /** `${x || fallback}`. */
  function Or(s: string, fallback: string): (r: string)
    ensures s != "" ==> r == s
    ensures s == "" ==> r == fallback
  {
    if s != "" then s else fallback
  }

  const OutreachIntro := "Hello,\n\nI’m exploring therapy and your profile looks like a potential fit. A quick snapshot about me from Credibot (a therapy-prep tool):"
  const OutreachClose := "\n\nIf you’re taking new clients, could you share openings for an initial consultation and typical fees?\n\nThank you!"

  /** The labels of the note's bullet lines, top to bottom. */
  const OutreachLabels: seq<string> := [
    "Location", "Session preference", "Insurance", "Budget",
    "Modalities I think I might like", "Focus areas", "Language"
  ]

  /** What each bullet line shows, with the defaults for empty fields. */
  function OutreachValues(f: Filters): seq<string> {
    [ Or(f.city, "(your city)"),
      if f.telehealth then "Telehealth" else "In-person",
      Or(f.insurance, "Self-pay / TBD"),
      if FeeGiven(f.maxFee) then "Up to $" + IntToString(f.maxFee.n) else "Flexible",
      Or(Join(f.modalities, ", "), "TBD"),
      Or(Join(f.specialties, ", "), "TBD"),
      Or(f.language, "English") ]
  }

  /** One bullet line: `\n- caption: value`. */
  function Row(caption: string, value: string): string {
    "\n- " + caption + ": " + value
  }

  function Rows(labels: seq<string>, values: seq<string>): string
    requires |labels| == |values|
  {
    if labels == [] then "" else Row(labels[0], values[0]) + Rows(labels[1..], values[1..])
  }

  /** The English outreach note. */
  function EnglishOutreach(f: Filters): string {
    OutreachIntro + Rows(OutreachLabels, OutreachValues(f)) + OutreachClose
  }

  /** Every empty field shows its default; the session line shows the
      telehealth choice; a blank or zero fee is "Flexible". */
  lemma OutreachDefaults(f: Filters)
    ensures |OutreachValues(f)| == |OutreachLabels|
    ensures OutreachValues(f)[0] == (if f.city == "" then "(your city)" else f.city)
    ensures OutreachValues(f)[1] == (if f.telehealth then "Telehealth" else "In-person")
    ensures OutreachValues(f)[2] == (if f.insurance == "" then "Self-pay / TBD" else f.insurance)
    ensures OutreachValues(f)[3] == "Flexible" <==> !FeeGiven(f.maxFee)
    ensures |f.modalities| == 0 ==> OutreachValues(f)[4] == "TBD"
    ensures |f.specialties| == 0 ==> OutreachValues(f)[5] == "TBD"
    ensures OutreachValues(f)[6] == (if f.language == "" then "English" else f.language)
  {
    if FeeGiven(f.maxFee) {
      var v := "Up to $" + IntToString(f.maxFee.n);
      assert v[0] == 'U';
    }
  }

  /** Where the `i`-th bullet line starts in `Rows`. */
  function RowsOffset(labels: seq<string>, values: seq<string>, i: nat): nat
    requires |labels| == |values| && i <= |labels|
  {
    if i == 0 then 0 else |Row(labels[0], values[0])| + RowsOffset(labels[1..], values[1..], i - 1)
  }

  /** The `i`-th bullet line appears whole, at its offset. */
  lemma {:induction false} RowsAt(labels: seq<string>, values: seq<string>, i: nat)
    requires |labels| == |values| && i < |labels|
    ensures RowsOffset(labels, values, i) + |Row(labels[i], values[i])| <= |Rows(labels, values)|
    ensures StartsWith(Rows(labels, values)[RowsOffset(labels, values, i)..], Row(labels[i], values[i]))
  {
    var first := Row(labels[0], values[0]);
    var rest := Rows(labels[1..], values[1..]);
    if i == 0 {
      StartsWithAppend(first, rest);
    } else {
      RowsAt(labels[1..], values[1..], i - 1);
      assert (first + rest)[|first|..] == rest;
      assert (first + rest)[RowsOffset(labels, values, i)..] == rest[RowsOffset(labels[1..], values[1..], i - 1)..];
    }
  }

  /** Text found at an offset of the middle part is found in the whole. */
  lemma InMiddle(intro: string, rows: string, close: string, off: nat, row: string)
    requires off <= |rows| && StartsWith(rows[off..], row)
    ensures |intro| + off <= |intro + rows + close|
    ensures StartsWith((intro + rows + close)[|intro| + off..], row)
  {
    assert (intro + rows + close)[|intro| + off..] == rows[off..] + close;
  }

  /** The note holds each bullet line, label and value, after the greeting. */
  lemma OutreachHasRow(f: Filters, i: nat)
    requires i < 7
    ensures var at := |OutreachIntro| + RowsOffset(OutreachLabels, OutreachValues(f), i);
      && at <= |EnglishOutreach(f)|
      && StartsWith(EnglishOutreach(f)[at..], Row(OutreachLabels[i], OutreachValues(f)[i]))
  {
    var labels, values := OutreachLabels, OutreachValues(f);
    RowsAt(labels, values, i);
    InMiddle(OutreachIntro, Rows(labels, values), OutreachClose, RowsOffset(labels, values, i), Row(labels[i], values[i]));
  }
}
