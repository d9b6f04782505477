/** The Helm values sent for a routing stack: the user's tree merged over the default image, an explicit
    image override merged over both. */
module ValuesMerge {
  import opened Wrappers

  /** Only a map merges; a string, number, list or null is a leaf. */
  datatype Value = Leaf(text: string) | Node(fields: Fields)

  type Fields = map<string, Value>

  type Path = seq<string>

  /** What stands at a path. */
  function At(v: Value, path: Path): Option<Value> {
    if path == [] then Some(v)
    else if v.Node? && path[0] in v.fields then At(v.fields[path[0]], path[1..])
    else None
  }

  /** A leaf stands above the path's end. */
  predicate Blocked(v: Value, path: Path) {
    path != [] && (v.Leaf? || (path[0] in v.fields && Blocked(v.fields[path[0]], path[1..])))
  }

  function Merged(base: Fields, over: Fields): (out: Fields)
    ensures out.Keys == base.Keys + over.Keys
    decreases Node(over)
  {
    map k | k in base.Keys + over.Keys ::
      if k !in over then base[k]
      else if over[k].Node? && k in base && base[k].Node? then Node(Merged(base[k].fields, over[k].fields))
      else over[k]
  }

  /** The merge with the override's keys of `todo` still to come. */
  ghost predicate Partly(base: Fields, goal: Fields, todo: set<string>, out: Fields) {
    && out.Keys + todo == goal.Keys && base.Keys <= out.Keys
    && forall k | k in out :: if k in todo then k in base && out[k] == base[k] else out[k] == goal[k]
  }

  lemma PartlyStarts(base: Fields, over: Fields)
    ensures Partly(base, Merged(base, over), over.Keys, base)
  {
  }

  lemma PartlyThen(base: Fields, goal: Fields, todo: set<string>, out: Fields, key: string, v: Value)
    requires Partly(base, goal, todo, out) && key in todo && v == goal[key]
    ensures Partly(base, goal, todo - {key}, out[key := v])
  {
  }

  lemma PartlyEnds(base: Fields, goal: Fields, out: Fields)
    requires Partly(base, goal, {}, out)
    ensures out == goal
  {
  }

  /** The keys are gone through in whatever order the dict has them. */
  method DeepMerge(base: Fields, over: Fields) returns (out: Fields)
    ensures out == Merged(base, over)
    decreases Node(over), 1
  {
    ghost var goal := Merged(base, over);
    PartlyStarts(base, over);
    out := base;
    var todo := over.Keys;
    while todo != {}
      invariant todo <= over.Keys && Partly(base, goal, todo, out)
      decreases |todo|
    {
      var key :| key in todo;
      var v := MergeKey(base, over, key, out);
      PartlyThen(base, goal, todo, out, key, v);
      out, todo := out[key := v], todo - {key};
    }
    PartlyEnds(base, goal, out);
  }

  /** What the loop writes under one key. */
  method MergeKey(base: Fields, over: Fields, key: string, out: Fields) returns (v: Value)
    requires key in over && base.Keys <= out.Keys && (key in out ==> key in base && out[key] == base[key])
    ensures v == Merged(base, over)[key]
    decreases Node(over), 0
  {
    if over[key].Node? && key in out && out[key].Node? {
      var inner := DeepMerge(out[key].fields, over[key].fields);
      v := Node(inner);
    } else {
      v := over[key];
    }
  }

  /** What a merge leaves at a path, given what the two sides have there. */
  function Outcome(base: Option<Value>, over: Option<Value>, blocked: bool): Option<Value> {
    match over
    case Some(Node(fields)) =>
      if base.Some? && base.value.Node? then Some(Node(Merged(base.value.fields, fields))) else over
    case Some(_) => over
    case None => if blocked then None else base
  }

  /** The merge, path by path: the override's leaf if it has one, both maps merged, and the base's value
      unless a leaf of the override hides it. */
  lemma {:induction false} MergedAt(base: Fields, over: Fields, path: Path)
    ensures At(Node(Merged(base, over)), path) ==
            Outcome(At(Node(base), path), At(Node(over), path), Blocked(Node(over), path))
    decreases path
  {
    if path != [] && path[0] in over {
      var key := path[0];
      if over[key].Node? && key in base && base[key].Node? {
        MergedAt(base[key].fields, over[key].fields, path[1..]);
      } else if path[1..] == [] {
      } else if key in base {
        assert base[key].Leaf? || over[key].Leaf?;
      }
    }
  }

  lemma OverrideLeafWins(base: Fields, over: Fields, path: Path, x: string)
    requires At(Node(over), path) == Some(Leaf(x))
    ensures At(Node(Merged(base, over)), path) == Some(Leaf(x))
  {
    MergedAt(base, over, path);
  }

  /** A leaf of the base survives exactly if the override has nothing there and no leaf above, or has
      the same leaf. */
  lemma BaseLeafSurvivesIff(base: Fields, over: Fields, path: Path, x: string)
    requires At(Node(base), path) == Some(Leaf(x))
    ensures At(Node(Merged(base, over)), path) == Some(Leaf(x)) <==>
            (At(Node(over), path).None? && !Blocked(Node(over), path)) || At(Node(over), path) == Some(Leaf(x))
  {
    MergedAt(base, over, path);
  }

  lemma {:induction false} MergedTwice(base: Fields, over: Fields)
    ensures Merged(Merged(base, over), over) == Merged(base, over)
    decreases Node(over)
  {
    var once := Merged(base, over);
    forall k | k in once ensures Merged(once, over)[k] == once[k] {
      if k in over && over[k].Node? && k in base && base[k].Node? {
        MergedTwice(base[k].fields, over[k].fields);
      } else if k in over && over[k].Node? {
        MergedSame(over[k].fields);
      }
    }
  }

  lemma {:induction false} MergedSame(v: Fields)
    ensures Merged(v, v) == v
    decreases Node(v)
  {
    forall k | k in v ensures Merged(v, v)[k] == v[k] {
      if v[k].Node? { MergedSame(v[k].fields); }
    }
  }

  /** Merging does not associate: a leaf in the middle cuts off what lies below it. */
  lemma MergeOrderMatters()
    ensures exists a, b, c :: Merged(Merged(a, b), c) != Merged(a, Merged(b, c))
  {
    var leaf, x, y := Leaf(""), Node(map["x" := Leaf("")]), Node(map["y" := Leaf("")]);
    var a, b, c: Fields := map["k" := x], map["k" := leaf], map["k" := y];
    var both := Merged(b, c);
    assert both["k"] == y;
    assert Merged(a, both)["k"] == Node(Merged(x.fields, y.fields));
    assert "x" in Merged(a, both)["k"].fields;
    assert Merged(Merged(a, b), c)["k"] == y;
  }

  // The stack's values

  datatype Stack = Stack(helmValues: Option<Fields>, eppRegistry: Option<string>, eppRepository: Option<string>,
                         eppTag: Option<string>)

  datatype Image = Image(registry: string, repository: string, tag: string)

  predicate Truthy(s: Option<string>) { s.Some? && s.value != "" }

  predicate Explicit(s: Stack) { Truthy(s.eppRegistry) || Truthy(s.eppRepository) || Truthy(s.eppTag) }

  /** Each part that the stack does not set comes from the settings. */
  function EppImage(s: Stack, settings: Image): Image {
    Image(if Truthy(s.eppRegistry) then s.eppRegistry.value else settings.registry,
          if Truthy(s.eppRepository) then s.eppRepository.value else settings.repository,
          if Truthy(s.eppTag) then s.eppTag.value else settings.tag)
  }

  function UserValues(s: Stack): Fields { if s.helmValues.Some? then s.helmValues.value else map[] }

  function ImageValues(image: Image): Fields {
    map["router" := Node(map["epp" := Node(map["image" := Node(
      map["registry" := Leaf(image.registry), "repository" := Leaf(image.repository), "tag" := Leaf(image.tag)])])])]
  }

  function ImagePath(field: string): Path { ["router", "epp", "image", field] }

  function ImageField(image: Image, field: string): string
    requires field in {"registry", "repository", "tag"}
  {
    if field == "registry" then image.registry else if field == "repository" then image.repository else image.tag
  }

  function StackValues(stack: Stack, image: Image): Fields {
    var out := Merged(ImageValues(image), UserValues(stack));
    if Explicit(stack) then Merged(out, ImageValues(image)) else out
  }

  lemma ImageValuesAt(image: Image, field: string)
    requires field in {"registry", "repository", "tag"}
    ensures At(Node(ImageValues(image)), ImagePath(field)) == Some(Leaf(ImageField(image, field)))
  {
    var epp := ImageValues(image)["router"].fields["epp"];
    var leaf := epp.fields["image"].fields[field];
    assert [field][1..] == [] && At(epp.fields["image"], [field]) == Some(leaf);
    assert ["image", field][1..] == [field] && At(epp, ["image", field]) == Some(leaf);
    assert ["epp", "image", field][1..] == ["image", field];
    assert ImagePath(field)[1..] == ["epp", "image", field];
  }

  /** An explicit image wins over the user's values, and those over the default: the default is what is sent
      exactly where the user says nothing. */
  predicate ImageChosen(out: Fields, stack: Stack, image: Image, field: string)
    requires field in {"registry", "repository", "tag"}
  {
    var path, user := ImagePath(field), Node(UserValues(stack));
    At(Node(out), path) ==
    if Explicit(stack) then Some(Leaf(ImageField(image, field)))
    else if At(user, path).Some? then At(user, path)
    else if Blocked(user, path) then None
    else Some(Leaf(ImageField(image, field)))
  }

  lemma ImageSent(stack: Stack, image: Image, field: string)
    requires field in {"registry", "repository", "tag"}
    ensures ImageChosen(StackValues(stack, image), stack, image, field)
  {
    var path := ImagePath(field);
    ImageValuesAt(image, field);
    MergedAt(ImageValues(image), UserValues(stack), path);
    MergedAt(Merged(ImageValues(image), UserValues(stack)), ImageValues(image), path);
  }

  /** So a stack that sets only the tag loses the registry its values name, to the one in the settings. */
  lemma TagAloneReplacesRegistry(stack: Stack, settings: Image)
    requires Truthy(stack.eppTag) && !Truthy(stack.eppRegistry)
    ensures var sent := Node(StackValues(stack, EppImage(stack, settings)));
            At(sent, ImagePath("registry")) == Some(Leaf(settings.registry))
  {
    ImageSent(stack, EppImage(stack, settings), "registry");
  }

  /** A leaf of the user's values is sent, except if an explicit image replaces it: at, above or below one of
      its fields. */
  predicate LeafChosen(out: Fields, stack: Stack, image: Image, path: Path, x: string) {
    var own := Node(ImageValues(image));
    At(Node(out), path) == Some(Leaf(x)) <==>
    !Explicit(stack) || At(own, path) == Some(Leaf(x)) || (At(own, path).None? && !Blocked(own, path))
  }

  lemma UserLeafSentIff(stack: Stack, image: Image, path: Path, x: string)
    requires At(Node(UserValues(stack)), path) == Some(Leaf(x))
    ensures LeafChosen(StackValues(stack, image), stack, image, path, x)
  {
    OverrideLeafWins(ImageValues(image), UserValues(stack), path, x);
    if Explicit(stack) {
      BaseLeafSurvivesIff(Merged(ImageValues(image), UserValues(stack)), ImageValues(image), path, x);
    }
  }

  method BuildValues(stack: Stack, image: Image) returns (out: Fields)
    ensures out == StackValues(stack, image)
    ensures forall field | field in {"registry", "repository", "tag"} :: ImageChosen(out, stack, image, field)
    ensures forall path, x | At(Node(UserValues(stack)), path) == Some(Leaf(x)) :: LeafChosen(out, stack, image, path, x)
  {
    var user: Fields := if stack.helmValues.Some? then stack.helmValues.value else map[];
    out := DeepMerge(ImageValues(image), user);
    if Truthy(stack.eppRegistry) || Truthy(stack.eppRepository) || Truthy(stack.eppTag) {
      out := DeepMerge(out, ImageValues(image));
    }
    forall field | field in {"registry", "repository", "tag"} ensures ImageChosen(out, stack, image, field) {
      ImageSent(stack, image, field);
    }
    forall path, x | At(Node(UserValues(stack)), path) == Some(Leaf(x)) ensures LeafChosen(out, stack, image, path, x) {
      UserLeafSentIff(stack, image, path, x);
    }
  }

  lemma TruthyIff(s: Option<string>)
    ensures Truthy(s) <==> s !in {None, Some("")}
  {
    if s.Some? && s.value == "" { assert s == Some(""); }
  }

  lemma ExplicitIff(stack: Stack)
    ensures Explicit(stack) <==> {stack.eppRegistry, stack.eppRepository, stack.eppTag} - {None, Some("")} != {}
  {
    TruthyIff(stack.eppRegistry);
    TruthyIff(stack.eppRepository);
    TruthyIff(stack.eppTag);
    var others := {stack.eppRegistry, stack.eppRepository, stack.eppTag} - {None, Some("")};
    assert Truthy(stack.eppRegistry) ==> stack.eppRegistry in others;
    assert Truthy(stack.eppRepository) ==> stack.eppRepository in others;
    assert Truthy(stack.eppTag) ==> stack.eppTag in others;
  }

  /** A stack with any part of the image set sends each set part as it is, and the settings' for the others. */
  lemma SetPartsSent(stack: Stack, settings: Image)
    requires {stack.eppRegistry, stack.eppRepository, stack.eppTag} - {None, Some("")} != {}
    ensures var sent := Node(StackValues(stack, EppImage(stack, settings)));
            && At(sent, ImagePath("registry")) ==
               Some(Leaf(if stack.eppRegistry in {None, Some("")} then settings.registry else stack.eppRegistry.value))
            && At(sent, ImagePath("repository")) ==
               Some(Leaf(if stack.eppRepository in {None, Some("")} then settings.repository else stack.eppRepository.value))
            && At(sent, ImagePath("tag")) ==
               Some(Leaf(if stack.eppTag in {None, Some("")} then settings.tag else stack.eppTag.value))
  {
    ExplicitIff(stack);
    TruthyIff(stack.eppRegistry);
    TruthyIff(stack.eppRepository);
    TruthyIff(stack.eppTag);
    ImageSent(stack, EppImage(stack, settings), "registry");
    ImageSent(stack, EppImage(stack, settings), "repository");
    ImageSent(stack, EppImage(stack, settings), "tag");
  }

  /** A stack with no part of the image set sends every leaf of its own values as it is. */
  lemma NothingSetSent(stack: Stack, image: Image, path: Path, x: string)
    requires {stack.eppRegistry, stack.eppRepository, stack.eppTag} - {None, Some("")} == {}
    requires stack.helmValues.Some? && At(Node(stack.helmValues.value), path) == Some(Leaf(x))
    ensures At(Node(StackValues(stack, image)), path) == Some(Leaf(x))
  {
    ExplicitIff(stack);
    UserLeafSentIff(stack, image, path, x);
  }
}
