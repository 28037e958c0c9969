/** The generated PHP files as values: doc blocks, methods, classes,
    configuration arrays and script bodies, as the Zend\Code generators are
    handed them. Rendering to text is not part of the model. */
module CodeModel {
  import opened Wrappers
  import opened Words

  /** A doc-block tag such as `@package Blog`. */
  datatype Tag = Tag(name: string, description: string)

  datatype DocBlock = DocBlock(
    shortDescription: Option<string>,
    longDescription: Option<string>,
    tags: seq<Tag>)

  /** A PHP value handed to Zend's value generator: a string, or an array
      of entries, each with a key or appended without one. */
  datatype Value = Str(s: string) | Arr(entries: seq<ArrayEntry>)
  datatype ArrayEntry = ArrayEntry(key: Option<string>, value: Value)

  /** A method body: source text kept as it is, or `return <v>;` and a line
      feed, with v rendered by the value generator. */
  datatype Body = Code(text: string) | ReturnValue(value: Value)

  /** A public method without parameters, the only kind ZFTool generates. */
  datatype Method = Method(name: string, body: Body, docBlock: Option<DocBlock>)

  datatype ClassModel = ClassModel(
    namespace: string,
    uses: seq<string>,
    name: string,
    parent: Option<string>,
    docBlock: Option<DocBlock>,
    methods: seq<Method>)

  /** A configuration array: its `modules` list (empty when the key is
      missing) and the remaining keys, which ZFTool never looks into. The
      value under such a key may be any nested PHP array; here it is an
      opaque string, since the generator only passes it through. */
  datatype Config = Config(modules: seq<string>, settings: map<string, string>)

  /** The content of a file on disk. */
  datatype FileData =
    | ClassFile(docBlock: Option<DocBlock>, cls: ClassModel)
    | ConfigFile(docBlock: Option<DocBlock>, config: Config)  // `return <array>;`
    | ScriptFile(docBlock: Option<DocBlock>, body: string)    // a file generator with a body
    | Text(text: string)                                     // any other content

  // ---------------------------------------------------------------------
  // Ordered sets: ClassGenerator::addUse and the module list
  // ---------------------------------------------------------------------

  /** Appends `x` unless it is already there. */
  function Insert<T(==,!new)>(xs: seq<T>, x: T): (r: seq<T>)
    ensures |r| == if x in xs then |xs| else |xs| + 1
    ensures r[..|xs|] == xs
    ensures forall y :: y in r <==> y in xs || y == x
  {
    if x in xs then xs else xs + [x]
  }

  predicate Distinct<T(==,!new)>(xs: seq<T>)
  {
    forall i, j :: 0 <= i < j < |xs| ==> xs[i] != xs[j]
  }

  /** Inserting twice is inserting once; what was not there before is there
      exactly once afterwards, and a list without duplicates keeps none. */
  lemma InsertIsSetLike<T(!new)>(xs: seq<T>, x: T)
    ensures Insert(Insert(xs, x), x) == Insert(xs, x)
    ensures multiset(Insert(xs, x))[x] == if x in xs then multiset(xs)[x] else 1
    ensures Distinct(xs) ==> Distinct(Insert(xs, x))
  {
    if x !in xs {
      assert multiset(xs)[x] == 0;
      assert multiset(xs + [x]) == multiset(xs) + multiset{x};
    }
  }

  // ---------------------------------------------------------------------
  // Classes and their methods
  // ---------------------------------------------------------------------

  /** The name FileReflection::getClass looks a class up by. */
  function QualifiedName(c: ClassModel): string
  {
    c.namespace + "\\" + c.name
  }

  /** FileReflection + getClass + ClassGenerator::fromReflection: the class
      of a generated file, or None where Zend throws (not a class file, or
      no class of that name). */
  function Reflect(data: FileData, qualifiedName: string): Option<ClassModel>
  {
    if data.ClassFile? && QualifiedName(data.cls) == qualifiedName then Some(data.cls) else None
  }

  /** ClassGenerator keys its methods by lower-cased name. */
  predicate SameMethodName(a: string, b: string)
  {
    StringToLower(a) == StringToLower(b)
  }

  predicate HasMethod(c: ClassModel, name: string)
  {
    exists i :: 0 <= i < |c.methods| && SameMethodName(c.methods[i].name, name)
  }

  /** ClassGenerator::addMethodFromGenerator: one more method, last. */
  function AddMethod(c: ClassModel, m: Method): (r: ClassModel)
    ensures |r.methods| == |c.methods| + 1 && r.methods[|c.methods|] == m
    ensures r.methods[..|c.methods|] == c.methods
    ensures r.(methods := c.methods) == c
  {
    c.(methods := c.methods + [m])
  }

  /** After adding `m`, a name is taken iff it was taken before or is the
      name of `m`; in particular a second add of the same name conflicts. */
  lemma {:induction false} HasMethodAfterAdd(c: ClassModel, m: Method, name: string)
    ensures HasMethod(AddMethod(c, m), name) <==> HasMethod(c, name) || SameMethodName(m.name, name)
  {
    var r := AddMethod(c, m);
    if HasMethod(c, name) {
      var i :| 0 <= i < |c.methods| && SameMethodName(c.methods[i].name, name);
      assert r.methods[i] == c.methods[i];
    }
    if SameMethodName(m.name, name) {
      assert r.methods[|c.methods|] == m;
    }
    if HasMethod(r, name) {
      var i :| 0 <= i < |r.methods| && SameMethodName(r.methods[i].name, name);
      if i < |c.methods| {
        assert r.methods[i] == c.methods[i];
      }
    }
  }

  const ActionControllerUse := "Zend\\Mvc\\Controller\\AbstractActionController"
  const ViewModelUse := "Zend\\View\\Model\\ViewModel"

  /** The use list after "fix namespace usage". */
  function FixedUses(uses: seq<string>): (r: seq<string>)
    ensures ActionControllerUse in r && ViewModelUse in r
    ensures |uses| <= |r| && r[..|uses|] == uses
    ensures forall u :: u in r ==> u in uses || u == ActionControllerUse || u == ViewModelUse
    ensures Distinct(uses) ==> Distinct(r)
  {
    var once := Insert(uses, ActionControllerUse);
    InsertIsSetLike(uses, ActionControllerUse);
    InsertIsSetLike(once, ViewModelUse);
    var twice := Insert(once, ViewModelUse);
    assert twice[..|uses|] == twice[..|once|][..|uses|];
    twice
  }

  /** The fix of namespace usage in CreateController::methodAction and
      ModuleGenerator::updateController: both uses present and
      AbstractActionController as parent, nothing else touched. */
  function FixUsage(c: ClassModel): (r: ClassModel)
    ensures r.uses == FixedUses(c.uses)
    ensures r.parent == Some("AbstractActionController")
    ensures r.(uses := c.uses, parent := c.parent) == c
  {
    c.(uses := FixedUses(c.uses), parent := Some("AbstractActionController"))
  }

  // ---------------------------------------------------------------------
  // The module list of application.config.php
  // ---------------------------------------------------------------------

  /** Lines 653-654: append the module unless it is already registered. */
  function Register(cfg: Config, moduleName: string): (r: Config)
    ensures moduleName in r.modules
    ensures |cfg.modules| <= |r.modules| && r.modules[..|cfg.modules|] == cfg.modules
    ensures moduleName in cfg.modules <==> r == cfg
    ensures moduleName !in cfg.modules ==> r.modules == cfg.modules + [moduleName]
    ensures r.settings == cfg.settings
  {
    cfg.(modules := Insert(cfg.modules, moduleName))
  }

  /** Registering twice is registering once, and leaves a new module
      in the list exactly once. */
  lemma RegisterTwice(cfg: Config, moduleName: string)
    ensures Register(Register(cfg, moduleName), moduleName) == Register(cfg, moduleName)
    ensures moduleName !in cfg.modules ==>
      multiset(Register(Register(cfg, moduleName), moduleName).modules)[moduleName] == 1
  {
    InsertIsSetLike(cfg.modules, moduleName);
  }
}
