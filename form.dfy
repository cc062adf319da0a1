/** The selection form of the breed page (pages/index.tsx): the three field
    values, one error flag per field, submit-time validation and the path of
    the images request. */
module Form {
  import opened Envelope
  import opened Text

  /** The keys of `ValuesProps`. */
  datatype Field = BreedField | SubBreedField | CountField

  /** The selection; "" means nothing chosen. */
  datatype Values = Values(breed: string, subBreed: string, count: string)
  {
    function Get(f: Field): string
    {
      match f
      case BreedField => breed
      case SubBreedField => subBreed
      case CountField => count
    }

    /** `{ ...values, [f]: x }` */
    function With(f: Field, x: string): (r: Values)
      ensures r.Get(f) == x
      ensures forall g :: g != f ==> r.Get(g) == Get(g)
    {
      match f
      case BreedField => this.(breed := x)
      case SubBreedField => this.(subBreed := x)
      case CountField => this.(count := x)
    }
  }

  /** One validation flag per field. */
  datatype Errors = Errors(breed: bool, subBreed: bool, count: bool)
  {
    function Get(f: Field): bool
    {
      match f
      case BreedField => breed
      case SubBreedField => subBreed
      case CountField => count
    }

    /** `{ ...errors, [f]: false }` */
    function Cleared(f: Field): (r: Errors)
      ensures !r.Get(f)
      ensures forall g :: g != f ==> r.Get(g) == Get(g)
    {
      match f
      case BreedField => this.(breed := false)
      case SubBreedField => this.(subBreed := false)
      case CountField => this.(count := false)
    }

    /** Some field is flagged. */
    predicate Any()
    {
      breed || subBreed || count
    }
  }

  const Initial := Values("", "", "")
  const NoErrors := Errors(false, false, false)

  /** `subBreeds?.length > 0`: the sub-breed list is loaded and not empty. */
  predicate SubBreedRequired(subBreeds: Option<seq<string>>)
  {
    subBreeds.Some? && |subBreeds.value| > 0
  }

  /** A selection that may be submitted: breed and count chosen, and a sub-breed
      chosen when the breed has sub-breeds. */
  predicate Complete(v: Values, subBreeds: Option<seq<string>>)
  {
    v.breed != "" && v.count != "" && (SubBreedRequired(subBreeds) ==> v.subBreed != "")
  }

  /** The flags computed on submit. */
  function Validate(v: Values, subBreeds: Option<seq<string>>): (e: Errors)
    ensures e.breed <==> v.breed == ""
    ensures e.count <==> v.count == ""
    ensures e.subBreed <==> SubBreedRequired(subBreeds) && v.subBreed == ""
    ensures e.Any() <==> !Complete(v, subBreeds)
  {
    Errors(v.breed == "", v.subBreed == "" && SubBreedRequired(subBreeds), v.count == "")
  }

  /** The early-return condition of the submit handler, as it is written apart from the flags. */
  function Aborts(v: Values, subBreeds: Option<seq<string>>): (b: bool)
    ensures b <==> Validate(v, subBreeds).Any()
  {
    v.breed == "" || v.count == "" || (SubBreedRequired(subBreeds) && v.subBreed == "")
  }

  /** With no sub-breeds loaded, or an empty list, the sub-breed never blocks a submit. */
  lemma NoSubBreedsNeverBlock(v: Values, subBreeds: Option<seq<string>>)
    requires subBreeds.None? || subBreeds.value == []
    ensures !Validate(v, subBreeds).subBreed
    ensures Aborts(v, subBreeds) <==> Aborts(v.(subBreed := ""), subBreeds)
    ensures Aborts(v, subBreeds) <==> v.breed == "" || v.count == ""
  {
  }

  /** `/breed/{breed}[/{subBreed}]/images/random/{count}` */
  function RequestPath(v: Values): string
  {
    "/breed/" + v.breed + (if v.subBreed != "" then "/" + v.subBreed else "") + "/images/random/" + v.count
  }

  /** The argument actually passed to the fetcher: `breed && count && path`. */
  function FetchArgument(v: Values): (p: string)
    ensures v.breed != "" && v.count != "" ==> p == RequestPath(v)
    ensures v.breed == "" || v.count == "" ==> p == ""
  {
    if v.breed == "" then v.breed else if v.count == "" then v.count else RequestPath(v)
  }

  /** A submit that gets past validation fetches exactly the request path. */
  lemma ValidSubmitFetchesRequestPath(v: Values, subBreeds: Option<seq<string>>)
    requires !Aborts(v, subBreeds)
    ensures FetchArgument(v) == RequestPath(v)
  {
  }

  /** The '/'-separated pieces of the request path. */
  function PathSegments(v: Values): seq<string>
  {
    ["", "breed", v.breed] + (if v.subBreed != "" then [v.subBreed] else []) + ["images", "random", v.count]
  }

  lemma JoinTail(c: string)
    ensures Join(["images", "random", c], '/') == "images/random/" + c
  {
    JoinCons("random", [c], '/');
    JoinCons("images", ["random", c], '/');
    assert ["images", "random", c] == ["images"] + ["random", c];
    assert ["random", c] == ["random"] + [c];
  }

  lemma BreedPrefix(j: string)
    ensures "" + ['/'] + ("breed" + ['/'] + j) == "/breed/" + j
  {
  }

  lemma JoinHead(xs: seq<string>)
    requires |xs| >= 1
    ensures Join([""] + (["breed"] + xs), '/') == "/breed/" + Join(xs, '/')
  {
    JoinCons("breed", xs, '/');
    JoinCons("", ["breed"] + xs, '/');
    BreedPrefix(Join(xs, '/'));
  }

  lemma PathWithSubBreed(v: Values)
    requires v.subBreed != ""
    ensures RequestPath(v) == "/breed/" + (v.breed + ['/'] + (v.subBreed + ['/'] + ("images/random/" + v.count)))
  {
  }

  lemma PathWithoutSubBreed(v: Values)
    requires v.subBreed == ""
    ensures RequestPath(v) == "/breed/" + (v.breed + ['/'] + ("images/random/" + v.count))
  {
  }

  lemma RequestPathIsJoin(v: Values)
    ensures RequestPath(v) == Join(PathSegments(v), '/')
  {
    var tail := ["images", "random", v.count];
    JoinTail(v.count);
    if v.subBreed != "" {
      var rest := [v.breed] + ([v.subBreed] + tail);
      JoinCons(v.subBreed, tail, '/');
      JoinCons(v.breed, [v.subBreed] + tail, '/');
      JoinHead(rest);
      assert PathSegments(v) == [""] + (["breed"] + rest);
      PathWithSubBreed(v);
    } else {
      var rest := [v.breed] + tail;
      JoinCons(v.breed, tail, '/');
      JoinHead(rest);
      assert PathSegments(v) == [""] + (["breed"] + rest);
      PathWithoutSubBreed(v);
    }
  }

  /** The upstream API's reading of an images path: the selection it names, if
      any. A sub-breed segment, when present, is not empty. */
  function ParseRequest(path: string): (r: Option<Values>)
  {
    var s := Segments(path, '/');
    if |s| == 6 && s[0] == "" && s[1] == "breed" && s[3] == "images" && s[4] == "random" then
      Some(Values(s[2], "", s[5]))
    else if |s| == 7 && s[0] == "" && s[1] == "breed" && s[3] != "" && s[4] == "images" && s[5] == "random" then
      Some(Values(s[2], s[3], s[6]))
    else
      None
  }

  predicate NoSlash(v: Values)
  {
    '/' !in v.breed && '/' !in v.subBreed && '/' !in v.count
  }

  /** The request path names exactly the selection it was built from. */
  lemma ParseRequestPath(v: Values)
    requires NoSlash(v)
    ensures ParseRequest(RequestPath(v)) == Some(v)
  {
    RequestPathIsJoin(v);
    var xs := PathSegments(v);
    assert NoSep(xs, '/') by {
      forall i | 0 <= i < |xs| ensures '/' !in xs[i] {
        if v.subBreed != "" {
          assert xs == ["", "breed", v.breed, v.subBreed, "images", "random", v.count];
        } else {
          assert xs == ["", "breed", v.breed, "images", "random", v.count];
        }
      }
    }
    SegmentsOfJoin(xs, '/');
  }

  /** Conversely, every path the API reads as an images request is the
      request path of the selection it names. */
  lemma ParsedPathIsRequestPath(path: string)
    requires ParseRequest(path).Some?
    ensures NoSlash(ParseRequest(path).value)
    ensures RequestPath(ParseRequest(path).value) == path
  {
    var s := Segments(path, '/');
    var v := ParseRequest(path).value;
    assert PathSegments(v) == s;
    JoinOfSegments(path, '/');
    RequestPathIsJoin(v);
  }

  /** Different selections request different paths. */
  lemma RequestPathInjective(v: Values, w: Values)
    requires NoSlash(v) && NoSlash(w)
    requires RequestPath(v) == RequestPath(w)
    ensures v == w
  {
    ParseRequestPath(v);
    ParseRequestPath(w);
  }
}
