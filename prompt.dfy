/** The structure of what APIClient sends to the model: which sections the
    system prompt is made of (create_messages), what the user text is, and
    which properties the response schema declares (get_schema). The wording
    of the prompt is not modelled; each section stands for its paragraph. */
module Prompt {
  import opened Errors
  import opened Json

  /** One paragraph of the system prompt. */
  datatype Section =
    | Instructions                      // the fixed instructions on characters and relations
    | DescriptionLimit(sentences: int)  // "Character Descriptions", limited to `sentences` sentences
    | PortraitPrompts                   // "Portrait Generation"
    | Draft(data: Json)                 // the preliminary data the model is asked to update

  /** The system message and the user message, in that order. */
  datatype Messages = Messages(system: seq<Section>, user: string)

  /** The sections create_messages appends, in the order it appends them. */
  function SystemSections(previous: Option<Json>, descSentences: Option<int>, generatePortraits: bool): seq<Section> {
    [Instructions]
    + (if descSentences.Some? then [DescriptionLimit(descSentences.value)] else [])
    + (if generatePortraits then [PortraitPrompts] else [])
    + (if previous.Some? && Truthy(previous.value) then [Draft(previous.value)] else [])
  }

  /** `[text] * copies`: empty when copies is zero or negative. */
  function Repeat(text: string, copies: int): seq<string>
    decreases copies
  {
    if copies <= 0 then [] else [text] + Repeat(text, copies - 1)
  }

  /** `sep.join(pieces)`. */
  function JoinWith(sep: string, pieces: seq<string>): string {
    if pieces == [] then ""
    else if |pieces| == 1 then pieces[0]
    else pieces[0] + sep + JoinWith(sep, pieces[1..])
  }

  function UserText(text: string, copies: int): string {
    JoinWith("\n\n", Repeat(text, copies))
  }

  /** create_messages: starts from the instructions and appends the optional
      sections; the user text is `copies` copies of the input. */
  method CreateMessages(text: string, previous: Option<Json>, descSentences: Option<int>,
                        generatePortraits: bool, copies: int) returns (m: Messages)
    ensures m == Messages(SystemSections(previous, descSentences, generatePortraits), UserText(text, copies))
  {
    var system := [Instructions];
    if descSentences.Some? {
      system := system + [DescriptionLimit(descSentences.value)];
    }
    if generatePortraits {
      system := system + [PortraitPrompts];
    }
    if previous.Some? && Truthy(previous.value) {
      system := system + [Draft(previous.value)];
    }
    m := Messages(system, UserText(text, copies));
  }

  /** The system prompt always opens with the instructions; it limits the
      descriptions exactly when a sentence count is given, asks for portrait
      prompts exactly when asked to, and carries a draft exactly when the
      previous data is present and truthy, as its last section. */
  lemma SystemSectionsRule(previous: Option<Json>, descSentences: Option<int>, generatePortraits: bool)
    ensures SystemSections(previous, descSentences, generatePortraits)[0] == Instructions
    ensures forall n :: DescriptionLimit(n) in SystemSections(previous, descSentences, generatePortraits)
                        <==> descSentences == Some(n)
    ensures PortraitPrompts in SystemSections(previous, descSentences, generatePortraits) <==> generatePortraits
    ensures forall d :: Draft(d) in SystemSections(previous, descSentences, generatePortraits)
                        <==> previous == Some(d) && Truthy(d)
    ensures forall k :: 0 <= k < |SystemSections(previous, descSentences, generatePortraits)| &&
                        SystemSections(previous, descSentences, generatePortraits)[k].Draft? ==>
                          k == |SystemSections(previous, descSentences, generatePortraits)| - 1
  {
    var a: seq<Section> := if descSentences.Some? then [DescriptionLimit(descSentences.value)] else [];
    var b: seq<Section> := if generatePortraits then [PortraitPrompts] else [];
    var c: seq<Section> := if previous.Some? && Truthy(previous.value) then [Draft(previous.value)] else [];
    var s := SystemSections(previous, descSentences, generatePortraits);
    assert s == [Instructions] + a + b + c;
    assert forall x :: x in s <==> x == Instructions || x in a || x in b || x in c;
  }

  /** The user text for k separators and k + 1 copies, unfolded once. */
  lemma UserTextUnfold(text: string, copies: int)
    requires copies >= 2
    ensures UserText(text, copies) == text + "\n\n" + UserText(text, copies - 1)
  {
    assert Repeat(text, copies)[1..] == Repeat(text, copies - 1);
  }

  /** One copy is the text unchanged; no copies at all is the empty text. */
  lemma UserTextDegenerate(text: string, copies: int)
    ensures copies <= 0 ==> UserText(text, copies) == ""
    ensures copies == 1 ==> UserText(text, copies) == text
  {
  }

  lemma SliceOfTail(u: string, front: string, rest: string, i: int, j: int)
    requires u == front + rest && 0 <= i <= j <= |rest|
    ensures u[|front| + i .. |front| + j] == rest[i..j]
  {
  }

  /** Where copy k of the text starts: k * (|text| + 2), counted up without multiplying. */
  function Offset(text: string, k: nat): nat {
    if k == 0 then 0 else Offset(text, k - 1) + |text| + 2
  }

  lemma {:induction false} OffsetIsProduct(text: string, k: nat)
    ensures Offset(text, k) == k * (|text| + 2)
  {
    if k > 0 {
      OffsetIsProduct(text, k - 1);
      assert k * (|text| + 2) == (k - 1) * (|text| + 2) + |text| + 2;
    }
  }

  lemma {:induction false} OffsetShift(text: string, k: nat)
    requires k >= 1
    ensures Offset(text, k) == |text| + 2 + Offset(text, k - 1)
  {
  }

  lemma {:induction false} OffsetMonotone(text: string, a: nat, b: nat)
    requires a <= b
    ensures Offset(text, a) <= Offset(text, b)
    decreases b
  {
    if a < b {
      OffsetMonotone(text, a, b - 1);
    }
  }

  /** `copies` copies joined by blank lines take `copies` times the text and
      its separator, less one separator. */
  lemma {:induction false} UserTextLength(text: string, copies: nat)
    requires copies >= 1
    ensures |UserText(text, copies)| + 2 == Offset(text, copies)
    decreases copies
  {
    if copies >= 2 {
      UserTextUnfold(text, copies);
      UserTextLength(text, copies - 1);
    }
  }

  lemma SliceOfHead(u: string, front: string, rest: string, i: int, j: int)
    requires u == front + rest && 0 <= i <= j <= |front|
    ensures u[i..j] == front[i..j]
  {
  }

  /** Copy k of the input starts at Offset(k) of the user text. */
  lemma {:induction false} UserTextCopy(text: string, copies: nat, k: nat)
    requires k < copies
    ensures Offset(text, k) + |text| + 2 <= Offset(text, copies)
    ensures |UserText(text, copies)| + 2 == Offset(text, copies)
    ensures UserText(text, copies)[Offset(text, k) .. Offset(text, k) + |text|] == text
    decreases copies
  {
    UserTextLength(text, copies);
    OffsetMonotone(text, k + 1, copies);
    if copies >= 2 {
      UserTextUnfold(text, copies);
      var front := text + "\n\n";
      var u := UserText(text, copies);
      var rest := UserText(text, copies - 1);
      if k == 0 {
        SliceOfHead(u, front, rest, 0, |text|);
        assert front[0..|text|] == text;
      } else {
        UserTextCopy(text, copies - 1, k - 1);
        OffsetShift(text, k);
        var o := Offset(text, k - 1);
        SliceOfTail(u, front, rest, o, o + |text|);
      }
    }
  }

  /** Between copy k and copy k + 1 lies exactly a blank line. */
  lemma {:induction false} UserTextSeparator(text: string, copies: nat, k: nat)
    requires k + 1 < copies
    ensures Offset(text, k + 1) + |text| + 2 <= Offset(text, copies)
    ensures |UserText(text, copies)| + 2 == Offset(text, copies)
    ensures UserText(text, copies)[Offset(text, k) + |text| .. Offset(text, k + 1)] == "\n\n"
    decreases copies
  {
    UserTextLength(text, copies);
    OffsetMonotone(text, k + 2, copies);
    UserTextUnfold(text, copies);
    var front := text + "\n\n";
    var u := UserText(text, copies);
    var rest := UserText(text, copies - 1);
    if k == 0 {
      OffsetShift(text, 1);
      SliceOfHead(u, front, rest, |text|, |front|);
      assert front[|text|..|front|] == "\n\n";
    } else {
      UserTextSeparator(text, copies - 1, k - 1);
      OffsetShift(text, k);
      OffsetShift(text, k + 1);
      var o := Offset(text, k - 1);
      var o' := Offset(text, k);
      SliceOfTail(u, front, rest, o + |text|, o');
    }
  }

  // ---------------------------------------------------------------------------
  // get_schema

  datatype FieldType = Number | Text | Boolean | TextArray

  datatype Property = Property(name: string, kind: FieldType)

  /** The response schema: the properties and required keys of a character,
      those of a relation, and the required top-level keys. */
  datatype Schema = Schema(
    characterProperties: seq<Property>,
    characterRequired: seq<string>,
    relationProperties: seq<Property>,
    relationRequired: seq<string>,
    required: seq<string>)

  /** The property names, in order. */
  function Names(props: seq<Property>): seq<string> {
    seq(|props|, k requires 0 <= k < |props| => props[k].name)
  }

  /** Whether some property is called `name`. */
  predicate Declares(props: seq<Property>, name: string) {
    name in Names(props)
  }

  /** No two properties share a name, as the keys of a dictionary. */
  predicate DistinctNames(props: seq<Property>) {
    forall i, j :: 0 <= i < j < |props| ==> props[i].name != props[j].name
  }

  /** The `character_properties` dictionary of get_schema: four fixed
      properties, then "description" when a sentence limit is given and
      "portrait_prompt" when portraits are asked for, both strings. */
  method CharacterProperties(descSentences: Option<int>, generatePortraits: bool) returns (props: seq<Property>)
    ensures |props| == 4 + (if descSentences.Some? then 1 else 0) + (if generatePortraits then 1 else 0)
    ensures props[..4]
         == [Property("id", Number), Property("common_name", Text),
             Property("main_character", Boolean), Property("names", TextArray)]
    ensures Declares(props, "description") <==> descSentences.Some?
    ensures Declares(props, "portrait_prompt") <==> generatePortraits
    ensures forall k :: 4 <= k < |props| ==> props[k].kind == Text
    ensures DistinctNames(props)
  {
    props := [
      Property("id", Number),
      Property("common_name", Text),
      Property("main_character", Boolean),
      Property("names", TextArray)
    ];
    ghost var names := ["id", "common_name", "main_character", "names"];
    assert Names(props) == names;
    if descSentences.Some? {
      props := props + [Property("description", Text)];
      names := names + ["description"];
      assert Names(props) == names;
    }
    if generatePortraits {
      props := props + [Property("portrait_prompt", Text)];
      names := names + ["portrait_prompt"];
      assert Names(props) == names;
    }
  }

  /** get_schema: the character properties above, the five relation
      properties, and which keys each object must have. */
  method GetSchema(descSentences: Option<int>, generatePortraits: bool) returns (s: Schema)
    ensures |s.characterProperties| == 4 + (if descSentences.Some? then 1 else 0) + (if generatePortraits then 1 else 0)
    ensures s.characterProperties[..4]
         == [Property("id", Number), Property("common_name", Text),
             Property("main_character", Boolean), Property("names", TextArray)]
    ensures Declares(s.characterProperties, "description") <==> descSentences.Some?
    ensures Declares(s.characterProperties, "portrait_prompt") <==> generatePortraits
    ensures forall k :: 4 <= k < |s.characterProperties| ==> s.characterProperties[k].kind == Text
    ensures s.relationProperties
         == [Property("id1", Number), Property("id2", Number), Property("relation", TextArray),
             Property("weight", Number), Property("positivity", Number)]
    ensures DistinctNames(s.characterProperties) && DistinctNames(s.relationProperties)
    ensures forall x :: x in s.characterRequired ==> Declares(s.characterProperties, x)
    ensures forall x :: Declares(s.relationProperties, x) <==> x in s.relationRequired
    ensures s.characterRequired == ["id", "names", "common_name", "main_character"]
    ensures s.relationRequired == ["id1", "id2", "relation", "weight", "positivity"]
    ensures s.required == ["characters", "relations"]
  {
    var characterProperties := CharacterProperties(descSentences, generatePortraits);
    assert characterProperties[..4][0] == characterProperties[0];
    assert characterProperties[..4][1] == characterProperties[1];
    assert characterProperties[..4][2] == characterProperties[2];
    assert characterProperties[..4][3] == characterProperties[3];
    assert Names(characterProperties)[0] == "id" && Names(characterProperties)[1] == "common_name";
    assert Names(characterProperties)[2] == "main_character" && Names(characterProperties)[3] == "names";
    var relationProperties := [
      Property("id1", Number),
      Property("id2", Number),
      Property("relation", TextArray),
      Property("weight", Number),
      Property("positivity", Number)
    ];
    assert Names(relationProperties) == ["id1", "id2", "relation", "weight", "positivity"];
    s := Schema(characterProperties, ["id", "names", "common_name", "main_character"],
                relationProperties, ["id1", "id2", "relation", "weight", "positivity"],
                ["characters", "relations"]);
  }
}
