/** The per-user settings of app.py: the defaults (`load_user_settings`,
    `initialize_user_data`) and the three save actions of the settings
    page, each a read-modify-write of the whole settings object. */
module Settings {
  import opened Wrappers
  import opened Text

  datatype Settings = Settings(categories: seq<string>, currency: string, startDate: int)

  const DefaultCategories: seq<string> :=
    ["Food", "Groceries", "Travel", "Rent", "Utilities",
     "Entertainment", "Healthcare", "Shopping", "Miscellaneous", "Income"]

  /** What a user without a settings file sees. */
  const Defaults: Settings := Settings(DefaultCategories, "INR (₹)", 1)

  /** The submitted category list with each entry stripped and blank
      entries dropped, in submission order. */
  function CleanCategories(submitted: seq<string>): (r: seq<string>)
    ensures |r| <= |submitted|
    ensures forall c :: c in r ==> c != "" && exists s :: s in submitted && Strip(s) == c
  {
    if submitted == [] then []
    else
      var head := Strip(submitted[0]);
      assert submitted == [submitted[0]] + submitted[1..];
      assert forall s :: s in submitted[1..] ==> s in submitted;
      assert submitted[0] in submitted;
      (if head != "" then [head] else []) + CleanCategories(submitted[1..])
  }

  /** Every submitted entry with some non-space text is kept, stripped. */
  lemma {:induction false} CleanCategoriesKeepsEntries(submitted: seq<string>)
    ensures forall s :: s in submitted && Strip(s) != "" ==> Strip(s) in CleanCategories(submitted)
  {
    if submitted != [] {
      var rest := submitted[1..];
      CleanCategoriesKeepsEntries(rest);
      forall s | s in submitted && Strip(s) != ""
        ensures Strip(s) in CleanCategories(submitted)
      {
        if s != submitted[0] {
          assert s in rest;
        }
      }
    }
  }

  /** No kept category has space at either end. */
  lemma {:induction false} CleanCategoriesTrimmed(submitted: seq<string>)
    ensures forall c :: c in CleanCategories(submitted) ==> !IsSpace(c[0]) && !IsSpace(c[|c| - 1])
  {
    if submitted != [] {
      var head, rest := Strip(submitted[0]), submitted[1..];
      CleanCategoriesTrimmed(rest);
      TrimEnds(submitted[0], IsSpace);
      forall c | c in CleanCategories(submitted)
        ensures !IsSpace(c[0]) && !IsSpace(c[|c| - 1])
      {
        if c !in CleanCategories(rest) {
          assert c == head;
        }
      }
    }
  }

  /** Cleaning works entry by entry, so it keeps submission order. */
  lemma {:induction false} CleanCategoriesConcat(a: seq<string>, b: seq<string>)
    ensures CleanCategories(a + b) == CleanCategories(a) + CleanCategories(b)
  {
    if a != [] {
      assert (a + b)[0] == a[0] && (a + b)[1..] == a[1..] + b;
      CleanCategoriesConcat(a[1..], b);
    } else {
      assert a + b == b;
    }
  }

  /** Saving an already saved list stores it unchanged. */
  lemma {:induction false} CleanCategoriesIdempotent(submitted: seq<string>)
    ensures CleanCategories(CleanCategories(submitted)) == CleanCategories(submitted)
  {
    if submitted != [] {
      var head := Strip(submitted[0]);
      var kept := if head != "" then [head] else [];
      var rest := CleanCategories(submitted[1..]);
      CleanCategoriesIdempotent(submitted[1..]);
      CleanCategoriesConcat(kept, rest);
      if head != "" {
        TrimIdempotent(submitted[0], IsSpace);
        assert CleanCategories(kept) == [head];
      }
    }
  }

  /** A list whose entries are already stripped and non-blank is
      stored as it is. */
  lemma {:induction false} CleanCategoriesOfClean(cs: seq<string>)
    requires forall c :: c in cs ==> c != "" && !IsSpace(c[0]) && !IsSpace(c[|c| - 1])
    ensures CleanCategories(cs) == cs
  {
    if cs != [] {
      assert cs[0] in cs;
      assert forall c :: c in cs[1..] ==> c in cs;
      CleanCategoriesOfClean(cs[1..]);
    }
  }

  /** `start_date.isdigit() and 1 <= int(start_date) <= 31`: the day of
      the month the text names, or `None` when it is to be ignored. */
  function ParseStartDay(text: Option<string>): (day: Option<int>)
    ensures day.Some? ==> 1 <= day.value <= 31
    ensures day.Some? ==> text.Some? && IsDigitString(text.value) && day.value == DigitsValue(text.value)
  {
    if Given(text) && IsDigitString(text.value) && 1 <= DigitsValue(text.value) <= 31
    then Some(DigitsValue(text.value))
    else None
  }

  /** Every day 1..31 written out in decimal is accepted as itself. */
  lemma ParseStartDayAccepts(n: nat)
    requires 1 <= n <= 31
    ensures ParseStartDay(Some(DecimalText(n))) == Some(n)
  {
    DecimalRoundTrip(n);
  }

  /** Days outside 1..31 are ignored. */
  lemma ParseStartDayRejectsRange(n: nat)
    requires n == 0 || n > 31
    ensures ParseStartDay(Some(DecimalText(n))) == None
  {
    DecimalRoundTrip(n);
  }

  /** A missing field is ignored, as is text that is not all digits (a
      sign or surrounding space included, which `int()` alone would
      accept). */
  lemma ParseStartDayRejectsText(text: Option<string>)
    requires text.None? || !IsDigitString(text.value)
    ensures ParseStartDay(text) == None
  {
  }

  /** The default categories are a cleaned list: saving them back on the
      settings page stores them unchanged. */
  lemma DefaultCategoriesAreClean()
    ensures CleanCategories(Defaults.categories) == Defaults.categories
  {
    var cs := DefaultCategories;
    forall i | 0 <= i < |cs|
      ensures IsLetter(cs[i][0]) && IsLetter(cs[i][|cs[i]| - 1])
    {
    }
    forall c | c in cs
      ensures c != "" && !IsSpace(c[0]) && !IsSpace(c[|c| - 1])
    {
      var i :| 0 <= i < |cs| && cs[i] == c;
      LetterIsNotSpace(c[0]);
      LetterIsNotSpace(c[|c| - 1]);
    }
    CleanCategoriesOfClean(cs);
  }

  predicate IsLetter(ch: char) {
    'A' <= ch <= 'Z' || 'a' <= ch <= 'z'
  }

  lemma LetterIsNotSpace(ch: char)
    requires IsLetter(ch)
    ensures !IsSpace(ch)
  {
  }

  /** The default start day is one the settings page accepts. */
  lemma DefaultStartDayIsAccepted()
    ensures ParseStartDay(Some(DecimalText(Defaults.startDate))) == Some(Defaults.startDate)
  {
    ParseStartDayAccepts(Defaults.startDate);
  }

  /** The user's settings file; `None` until it is first written. */
  class Store {
    var saved: Option<Settings>

    constructor ()
      ensures saved == None
    {
      saved := None;
    }

    /** `load_user_settings`: the file's contents, or the defaults when
        there is no file. */
    function Current(): Settings
      reads this
    {
      saved.GetOr(Defaults)
    }

    /** `initialize_user_data`: writes the defaults when there is no
        file, and leaves an existing file alone; what the user sees does
        not change. */
    method Initialize()
      modifies this
      ensures old(saved).None? ==> saved == Some(Defaults)
      ensures old(saved).Some? ==> saved == old(saved)
      ensures Current() == old(Current())
    {
      if saved.None? {
        saved := Some(Defaults);
      }
    }

    /** Saving categories always writes: the cleaned list replaces the
        old one and the other settings are kept. */
    method SaveCategories(submitted: seq<string>)
      modifies this
      ensures saved == Some(old(Current()).(categories := CleanCategories(submitted)))
    {
      var current := Current();
      current := current.(categories := CleanCategories(submitted));
      saved := Some(current);
    }

    /** Saving the currency writes only when a non-empty value was sent. */
    method SaveCurrency(currency: Option<string>)
      modifies this
      ensures Given(currency) ==> saved == Some(old(Current()).(currency := currency.value))
      ensures !Given(currency) ==> saved == old(saved)
    {
      if Given(currency) {
        var current := Current();
        current := current.(currency := currency.value);
        saved := Some(current);
      }
    }

    /** Saving the start day writes only when the text names a day 1..31
        in plain digits. */
    method SaveStartDate(text: Option<string>)
      modifies this
      ensures ParseStartDay(text).Some? ==> saved == Some(old(Current()).(startDate := ParseStartDay(text).value))
      ensures ParseStartDay(text).None? ==> saved == old(saved)
    {
      var day := ParseStartDay(text);
      if day.Some? {
        var current := Current();
        current := current.(startDate := day.value);
        saved := Some(current);
      }
    }
  }
}
