/** The two expressions of the page's image grid (pages/index.tsx): the
    column count and the accessible label of each image. */
module View {
  import opened Text
  import opened Form

  const LabelPrefix := "A picture of "

  /** `A picture of ${subBreed && `${capitalize(subBreed)} `}${capitalize(breed)}` */
  function AltLabel(v: Values): (alt: string)
    requires v.breed != ""
    ensures v.subBreed == "" ==> |alt| == |LabelPrefix| + |v.breed|
    ensures v.subBreed != "" ==> |alt| == |LabelPrefix| + |v.subBreed| + 1 + |v.breed|
    ensures alt[..|LabelPrefix|] == LabelPrefix
    ensures alt[|alt| - |v.breed|..] == Capitalize(v.breed)
    ensures v.subBreed != "" ==> alt[|LabelPrefix|..|LabelPrefix| + |v.subBreed| + 1] == Capitalize(v.subBreed) + " "
  {
    LabelPrefix + (if v.subBreed != "" then Capitalize(v.subBreed) + " " else "") + Capitalize(v.breed)
  }

  /** The words of the label, for names without spaces. */
  function LabelWords(v: Values): seq<string>
    requires v.breed != ""
  {
    ["A", "picture", "of"] + (if v.subBreed != "" then [Capitalize(v.subBreed)] else []) + [Capitalize(v.breed)]
  }

  lemma PrefixJoin(j: string)
    ensures Join(["A", "picture", "of"] + [j], ' ') == LabelPrefix + j
  {
    JoinCons("of", [j], ' ');
    JoinCons("picture", ["of"] + [j], ' ');
    JoinCons("A", ["picture"] + (["of"] + [j]), ' ');
    assert ["A", "picture", "of"] + [j] == ["A"] + (["picture"] + (["of"] + [j]));
  }

  lemma PrefixJoin2(s: string, b: string)
    ensures Join(["A", "picture", "of"] + [s] + [b], ' ') == LabelPrefix + (s + " ") + b
  {
    JoinCons(s, [b], ' ');
    JoinCons("of", [s] + [b], ' ');
    JoinCons("picture", ["of"] + ([s] + [b]), ' ');
    JoinCons("A", ["picture"] + (["of"] + ([s] + [b])), ' ');
    assert ["A", "picture", "of"] + [s] + [b] == ["A"] + (["picture"] + (["of"] + ([s] + [b])));
  }

  /** Splitting a label at its spaces gives back "A picture of", the
      capitalised sub-breed when one is chosen, and the capitalised breed. */
  lemma {:induction false} AltLabelWords(v: Values)
    requires v.breed != "" && ' ' !in v.breed && ' ' !in v.subBreed
    ensures Segments(AltLabel(v), ' ') == LabelWords(v)
  {
    var ws := LabelWords(v);
    CapitalizeKeepsSep(v.breed, ' ');
    if v.subBreed != "" {
      CapitalizeKeepsSep(v.subBreed, ' ');
      PrefixJoin2(Capitalize(v.subBreed), Capitalize(v.breed));
      assert ws == ["A", "picture", "of"] + [Capitalize(v.subBreed)] + [Capitalize(v.breed)];
    } else {
      PrefixJoin(Capitalize(v.breed));
      assert ws == ["A", "picture", "of"] + [Capitalize(v.breed)];
      assert AltLabel(v) == LabelPrefix + Capitalize(v.breed);
    }
    assert NoSep(ws, ' ');
    SegmentsOfJoin(ws, ' ');
  }

  /** `sizeXS ? 1 : sizeSM ? 2 : 4` */
  function Columns(sizeXS: bool, sizeSM: bool): (cols: nat)
    ensures cols == 1 <==> sizeXS
    ensures cols == 2 <==> !sizeXS && sizeSM
    ensures cols == 4 <==> !sizeXS && !sizeSM
    ensures cols == 1 || cols == 2 || cols == 4
  {
    if sizeXS then 1 else if sizeSM then 2 else 4
  }
}
