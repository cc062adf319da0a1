/** The state of the `Home` page component (pages/index.tsx) and the handlers
    that change it: field edits, the breed-reset effect and the two halves of
    the submit handler around its awaited fetch. */
module Home {
  import opened Envelope
  import opened Form

  class Page {
    var values: Values
    var errors: Errors
    var loading: bool
    /** The image URLs on display. */
    var result: seq<string>

    /** The initial state of the four `useState` hooks. */
    constructor ()
      ensures values == Initial && errors == NoErrors && !loading && result == []
    {
      values := Initial;
      errors := NoErrors;
      loading := false;
      result := [];
    }

    /** `handleChange(f)` on a new value `x`: store it and clear that field's flag. */
    method HandleChange(f: Field, x: string)
      modifies this
      ensures values == old(values).With(f, x)
      ensures errors == old(errors).Cleared(f)
      ensures loading == old(loading) && result == old(result)
    {
      errors := errors.Cleared(f);
      values := values.With(f, x);
    }

    /** The effect keyed on the breed: once a breed is set, the sub-breed is
        cleared (and its list re-requested, which is outside this model). */
    method ResetSubBreed()
      modifies this
      ensures old(values.breed) != "" ==> values == old(values).(subBreed := "")
      ensures old(values.breed) == "" ==> values == old(values)
      ensures errors == old(errors) && loading == old(loading) && result == old(result)
    {
      if values.breed != "" {
        values := values.(subBreed := "");
      }
    }

    /** Choosing a breed in the breed selector: the edit, then the effect,
        which React runs only when the breed differs from the one before. */
    method ChooseBreed(x: string)
      modifies this
      ensures values.breed == x && values.count == old(values.count)
      ensures values.subBreed == if x != "" && x != old(values.breed) then "" else old(values.subBreed)
      ensures errors == old(errors).Cleared(BreedField)
      ensures loading == old(loading) && result == old(result)
    {
      var changed := x != values.breed;
      HandleChange(BreedField, x);
      if changed {
        ResetSubBreed();
      }
    }

    /** The submit handler up to its `await`: recompute every flag, and either
        stop, or raise `loading` and return the path it fetches. */
    method Submit(subBreeds: Option<seq<string>>) returns (request: Option<string>)
      modifies this
      ensures errors == Validate(old(values), subBreeds)
      ensures request == if Aborts(old(values), subBreeds) then None else Some(RequestPath(old(values)))
      ensures request.Some? ==> loading && !errors.Any()
      ensures request.None? ==> loading == old(loading) && errors.Any()
      ensures values == old(values) && result == old(result)
    {
      errors := Validate(values, subBreeds);
      if Aborts(values, subBreeds) {
        return None;
      }
      loading := true;
      request := Some(FetchArgument(values));
    }

    /** The submit handler after its `await`: the reply's URL list replaces the
        result, and `loading` drops. */
    method Receive(response: FetchResult)
      requires response.message.Urls?
      modifies this
      ensures result == response.message.urls && !loading
      ensures values == old(values) && errors == old(errors)
    {
      result := response.message.urls;
      loading := false;
    }

    /** The whole submit handler, with `fetch` standing for the network call. */
    method HandleSubmit(subBreeds: Option<seq<string>>, fetch: string -> FetchResult)
      returns (request: Option<string>)
      requires !Aborts(values, subBreeds) ==> fetch(RequestPath(values)).message.Urls?
      modifies this
      ensures errors == Validate(old(values), subBreeds)
      ensures request == if Aborts(old(values), subBreeds) then None else Some(RequestPath(old(values)))
      ensures request.Some? ==> result == fetch(request.value).message.urls && !loading
      ensures request.None? ==> result == old(result) && loading == old(loading)
      ensures values == old(values)
    {
      request := Submit(subBreeds);
      if request.Some? {
        Receive(fetch(request.value));
      }
    }
  }

  /** Breed "akita" (no sub-breeds) and two images: the path fetched, and
      the reply shown once loading is over. */
  method AkitaScenario(urls: seq<string>) returns (request: Option<string>, shown: seq<string>, busy: bool)
    ensures request == Some("/breed/akita/images/random/2")
    ensures shown == urls && !busy
  {
    var page := new Page();
    page.ChooseBreed("akita");
    page.HandleChange(CountField, "2");
    request := page.Submit(Some([]));
    assert RequestPath(Values("akita", "", "2")) == "/breed/akita/images/random/2";
    page.Receive(FetchResult(Success, Urls(urls), None));
    shown, busy := page.result, page.loading;
  }

  /** Breed "bulldog", sub-breed "french", one image. */
  method BulldogScenario(subBreeds: seq<string>) returns (request: Option<string>)
    ensures request == Some("/breed/bulldog/french/images/random/1")
  {
    var page := new Page();
    page.ChooseBreed("bulldog");
    page.HandleChange(SubBreedField, "french");
    page.HandleChange(CountField, "1");
    request := page.Submit(Some(subBreeds));
    assert RequestPath(Values("bulldog", "french", "1")) == "/breed/bulldog/french/images/random/1";
  }

  /** Choosing a different breed after a sub-breed was chosen drops the
      sub-breed, so a breed that needs none (its list empty or not loaded)
      is then requested without one. */
  method ChangeBreedScenario(first: string, sub: string, second: string, count: string,
                             subBreeds: Option<seq<string>>)
    returns (request: Option<string>, flagged: Errors)
    requires first != "" && second != "" && first != second && count != ""
    requires !SubBreedRequired(subBreeds)
    ensures request == Some(RequestPath(Values(second, "", count)))
    ensures !flagged.Any()
  {
    var page := new Page();
    page.ChooseBreed(first);
    page.HandleChange(SubBreedField, sub);
    page.HandleChange(CountField, count);
    page.ChooseBreed(second);
    request := page.Submit(subBreeds);
    flagged := page.errors;
  }

  /** Choosing the breed that is already selected keeps the chosen sub-breed,
      which the request then names. */
  method SameBreedScenario(breed: string, sub: string, count: string, subBreeds: Option<seq<string>>)
    returns (request: Option<string>)
    requires breed != "" && sub != "" && count != ""
    ensures request == Some(RequestPath(Values(breed, sub, count)))
  {
    var page := new Page();
    page.ChooseBreed(breed);
    page.HandleChange(SubBreedField, sub);
    page.HandleChange(CountField, count);
    page.ChooseBreed(breed);
    request := page.Submit(subBreeds);
  }

  /** Submitting without a breed flags the breed and sends nothing. */
  method MissingBreedScenario(count: string, subBreeds: Option<seq<string>>)
    returns (request: Option<string>, flagged: Errors, busy: bool)
    ensures request == None && flagged.breed && !busy
    ensures flagged.count <==> count == ""
  {
    var page := new Page();
    page.HandleChange(CountField, count);
    request := page.Submit(subBreeds);
    flagged, busy := page.errors, page.loading;
  }
}
