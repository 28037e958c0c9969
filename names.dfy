/** Name and path derivation of CreateController::setupParams: from the raw
    console parameters to the module, controller and action names, classes,
    files and paths that every create command works with. */
module Names {
  import opened Wrappers
  import opened Words

  /** The console request. A parameter that was not given reads as "". */
  datatype Request = Request(
    path: string,
    moduleName: string,
    controllerName: string,
    actionName: string,
    ignoreConventions: bool,  // --ignore-conventions
    i: bool)                  // -i

  /** PHP truthiness of a string: "" and "0" are false. */
  predicate Truthy(s: string) { s != "" && s != "0" }

  /** The project path: trailing slashes removed, and "." when what is left
      is empty in PHP's sense ("" or "0"). */
  function NormalizePath(raw: string): (p: string)
    ensures p != [] && p[|p| - 1] != '/'
    ensures p == "." || (p <= raw && forall i :: |p| <= i < |raw| ==> raw[i] == '/')
    ensures p == "." <==> RTrim(raw, '/') in {"", "0", "."}
  {
    var t := RTrim(raw, '/');
    if !Truthy(t) then "." else t
  }

  /** Module and controller names (lines 68-79 and 100-111). */
  function ClassStyleName(raw: string, ignoreConventions: bool): (r: string)
    ensures '-' !in r
  {
    if !ignoreConventions then DashToCamelCase(UnderscoreToCamelCase(raw))
    else DashToUnderscore(raw)
  }

  /** Action names (lines 147-158): dashes in convention mode come from the
      underscores, not from a first camel-case pass. */
  function ActionStyleName(raw: string, ignoreConventions: bool): (r: string)
    ensures '-' !in r
  {
    if !ignoreConventions then DashToCamelCase(UnderscoreToDash(raw))
    else DashToUnderscore(raw)
  }

  /** View directory and view file names: camel case to dash, then lower case. */
  function ViewName(s: string): (r: string)
    ensures forall i :: 0 <= i < |r| ==> !IsUpper(r[i])
  {
    StringToLower(CamelCaseToDash(s))
  }

  datatype ModuleNames = ModuleNames(name: string, path: string, viewDir: string)

  datatype ControllerNames = ControllerNames(
    name: string, path: string, cls: string, file: string, viewPath: string)

  datatype ActionNames = ActionNames(
    name: string, methodName: string, viewFile: string, viewPath: string)

  /** Everything setupParams derives; a group is absent when its raw name
      was not given. The accessors give "" for an absent group, which is what
      an unset PHP variable turns into when it is concatenated or read back
      from the parameters. */
  datatype ResolvedNames = ResolvedNames(
    tmpDir: string,
    path: string,
    moduleGroup: Option<ModuleNames>,
    controllerGroup: Option<ControllerNames>,
    actionGroup: Option<ActionNames>)
  {
    function ModuleName(): string { if moduleGroup.Some? then moduleGroup.value.name else "" }
    function ModulePath(): string { if moduleGroup.Some? then moduleGroup.value.path else "" }
    function ModuleViewDir(): string { if moduleGroup.Some? then moduleGroup.value.viewDir else "" }
    function ControllerName(): string { if controllerGroup.Some? then controllerGroup.value.name else "" }
    function ControllerPath(): string { if controllerGroup.Some? then controllerGroup.value.path else "" }
    function ControllerClass(): string { if controllerGroup.Some? then controllerGroup.value.cls else "" }
    function ControllerFile(): string { if controllerGroup.Some? then controllerGroup.value.file else "" }
    function ControllerViewPath(): string { if controllerGroup.Some? then controllerGroup.value.viewPath else "" }
    function ActionName(): string { if actionGroup.Some? then actionGroup.value.name else "" }
    function ActionMethod(): string { if actionGroup.Some? then actionGroup.value.methodName else "" }
    function ActionViewFile(): string { if actionGroup.Some? then actionGroup.value.viewFile else "" }
    function ActionViewPath(): string { if actionGroup.Some? then actionGroup.value.viewPath else "" }
  }

  function ModuleNamesOf(path: string, name: string): ModuleNames
  {
    ModuleNames(name, path + "/module/" + name, ViewName(name))
  }

  function ControllerNamesOf(m: ResolvedNames, name: string): ControllerNames
  {
    var cls := name + "Controller";
    ControllerNames(
      name,
      m.ModulePath() + "/src/" + m.ModuleName() + "/Controller/",
      cls,
      cls + ".php",
      m.ModulePath() + "/view/" + m.ModuleViewDir() + "/" + ViewName(name))
  }

  function ActionNamesOf(m: ResolvedNames, name: string): ActionNames
  {
    var file := ViewName(name + ".phtml");
    ActionNames(name, LcFirst(name) + "Action", file, m.ControllerViewPath() + "/" + file)
  }

  /** setupParams as a function of the request and the system temp directory. */
  function Resolve(req: Request, tmpDir: string): (r: ResolvedNames)
    ensures r.tmpDir == tmpDir && r.path == NormalizePath(req.path)
    ensures r.moduleGroup.Some? <==> Truthy(req.moduleName)
    ensures r.controllerGroup.Some? <==> Truthy(req.controllerName)
    ensures r.actionGroup.Some? <==> Truthy(req.actionName)
  {
    var path := NormalizePath(req.path);
    var ignore := req.ignoreConventions || req.i;
    var m := ResolvedNames(tmpDir, path, None, None, None);
    var m := if Truthy(req.moduleName)
      then m.(moduleGroup := Some(ModuleNamesOf(path, ClassStyleName(req.moduleName, ignore))))
      else m;
    var m := if Truthy(req.controllerName)
      then m.(controllerGroup := Some(ControllerNamesOf(m, ClassStyleName(req.controllerName, ignore))))
      else m;
    if Truthy(req.actionName)
      then m.(actionGroup := Some(ActionNamesOf(m, ActionStyleName(req.actionName, ignore))))
      else m
  }

  // ---------------------------------------------------------------------
  // The parameter map ($this->requestParams)
  // ---------------------------------------------------------------------

  /** Parameters::get: null, i.e. "", for a key that was never set. */
  function Get(params: map<string, string>, key: string): string
  {
    if key in params then params[key] else ""
  }

  /** The keys setupParams sets, with their values, group by group. */
  function Params(r: ResolvedNames): map<string, string>
  {
    ActionParams(ControllerParams(ModuleParams(BaseParams(r), r), r), r)
  }

  function BaseParams(r: ResolvedNames): map<string, string>
  {
    map["tmpDir" := r.tmpDir, "path" := r.path]
  }

  function ModuleParams(p: map<string, string>, r: ResolvedNames): map<string, string>
  {
    if r.moduleGroup.Some?
    then p["moduleName" := r.ModuleName()]["modulePath" := r.ModulePath()]
          ["moduleViewDir" := r.ModuleViewDir()]
    else p
  }

  function ControllerParams(p: map<string, string>, r: ResolvedNames): map<string, string>
  {
    if r.controllerGroup.Some?
    then p["controllerName" := r.ControllerName()]["controllerPath" := r.ControllerPath()]
          ["controllerClass" := r.ControllerClass()]["controllerFile" := r.ControllerFile()]
          ["controllerViewPath" := r.ControllerViewPath()]
    else p
  }

  function ActionParams(p: map<string, string>, r: ResolvedNames): map<string, string>
  {
    if r.actionGroup.Some?
    then p["actionName" := r.ActionName()]["actionMethod" := r.ActionMethod()]
          ["actionViewFile" := r.ActionViewFile()]["actionViewPath" := r.ActionViewPath()]
    else p
  }

  /** Reading a parameter back gives the derived value, or "" when its group
      is absent. */
  lemma ParamsReadBack(r: ResolvedNames)
    ensures Get(Params(r), "tmpDir") == r.tmpDir && Get(Params(r), "path") == r.path
    ensures Get(Params(r), "moduleName") == r.ModuleName()
    ensures Get(Params(r), "modulePath") == r.ModulePath()
    ensures Get(Params(r), "moduleViewDir") == r.ModuleViewDir()
    ensures Get(Params(r), "controllerName") == r.ControllerName()
    ensures Get(Params(r), "controllerPath") == r.ControllerPath()
    ensures Get(Params(r), "controllerClass") == r.ControllerClass()
    ensures Get(Params(r), "controllerFile") == r.ControllerFile()
    ensures Get(Params(r), "controllerViewPath") == r.ControllerViewPath()
    ensures Get(Params(r), "actionName") == r.ActionName()
    ensures Get(Params(r), "actionMethod") == r.ActionMethod()
    ensures Get(Params(r), "actionViewFile") == r.ActionViewFile()
    ensures Get(Params(r), "actionViewPath") == r.ActionViewPath()
  {
  }

  // ---------------------------------------------------------------------
  // Properties of the derivation
  // ---------------------------------------------------------------------

  /** No derived module, controller or action name contains a dash, in
      either naming mode. */
  lemma NamesHaveNoDash(req: Request, tmpDir: string)
    ensures '-' !in Resolve(req, tmpDir).ModuleName()
    ensures '-' !in Resolve(req, tmpDir).ControllerName()
    ensures '-' !in Resolve(req, tmpDir).ActionName()
  {
  }

  /** In convention mode module, controller and action names are the
      camel-cased raw names, '-' and '_' both counting as word separators;
      with conventions ignored only dashes become underscores. */
  lemma {:induction false} NamingModes(req: Request, tmpDir: string)
    ensures var r := Resolve(req, tmpDir);
      var ignore := req.ignoreConventions || req.i;
      && (r.moduleGroup.Some? ==>
            r.ModuleName() == (if ignore then DashToUnderscore(req.moduleName) else ConventionName(req.moduleName)))
      && (r.controllerGroup.Some? ==>
            r.ControllerName() == (if ignore then DashToUnderscore(req.controllerName) else ConventionName(req.controllerName)))
      && (r.actionGroup.Some? ==>
            r.ActionName() == (if ignore then DashToUnderscore(req.actionName) else ConventionName(req.actionName)))
  {
    UnderscoreThenDash(req.moduleName, true, true);
    UnderscoreThenDash(req.controllerName, true, true);
    ReplaceThenCamel(req.actionName, '_', '-', true);
  }

  /** Camel-casing a literal-mode name gives the convention-mode name: the
      two modes differ only in whether the words are joined. */
  lemma LiteralThenCamel(raw: string)
    ensures UnderscoreToCamelCase(ClassStyleName(raw, true)) == ClassStyleName(raw, false)
    ensures UnderscoreToCamelCase(ActionStyleName(raw, true)) == ActionStyleName(raw, false)
  {
    ReplaceThenCamel(raw, '-', '_', true);
    UnderscoreThenDash(raw, true, true);
    ReplaceThenCamel(raw, '_', '-', true);
  }

  lemma {:induction false} CamelCaseToDashFromAppend(a: string, b: string, i: nat)
    requires i <= |a|
    requires b != [] && !IsLower(b[0])
    requires forall k :: 0 <= k < |b| ==> !IsUpper(b[k])
    ensures CamelCaseToDashFrom(a + b, i) == CamelCaseToDashFrom(a, i) + b
    decreases |a| - i
  {
    if i == |a| {
      NoUpperNoDash(a + b, i);
      assert (a + b)[i..] == b;
    } else {
      DashBeforeAppend(a, b, i);
      var d: string := if DashBefore(a, i) then "-" else "";
      assert (a + b)[i] == a[i];
      assert CamelCaseToDashFrom(a + b, i) == d + [a[i]] + CamelCaseToDashFrom(a + b, i + 1);
      CamelCaseToDashFromAppend(a, b, i + 1);
      assert CamelCaseToDashFrom(a, i) == d + [a[i]] + CamelCaseToDashFrom(a, i + 1);
    }
  }

  /** A suffix that does not start with a lower-case letter does not change
      where the dashes of `a` go. */
  lemma DashBeforeAppend(a: string, b: string, i: nat)
    requires i < |a|
    requires b != [] && !IsLower(b[0])
    ensures DashBefore(a + b, i) == DashBefore(a, i)
  {
    assert (a + b)[i] == a[i];
    if 0 < i {
      assert (a + b)[i - 1] == a[i - 1];
    }
    if i + 1 < |a| {
      assert (a + b)[i + 1] == a[i + 1];
    } else {
      assert (a + b)[i + 1] == b[0];
    }
  }

  /** Without upper-case letters CamelCaseToDash changes nothing. */
  lemma {:induction false} NoUpperNoDash(s: string, i: nat)
    requires i <= |s|
    requires forall k :: i <= k < |s| ==> !IsUpper(s[k])
    ensures CamelCaseToDashFrom(s, i) == s[i..]
    decreases |s| - i
  {
    if i < |s| {
      NoUpperNoDash(s, i + 1);
      assert s[i..] == [s[i]] + s[i + 1..];
    }
  }

  lemma {:induction false} StringToLowerAppend(a: string, b: string)
    ensures StringToLower(a + b) == StringToLower(a) + StringToLower(b)
    decreases |a|
  {
    if a == [] {
      assert a + b == b;
    } else {
      assert (a + b)[1..] == a[1..] + b;
      StringToLowerAppend(a[1..], b);
    }
  }

  /** The action view file is the action's view name with ".phtml". */
  lemma ViewFileName(name: string)
    ensures ViewName(name + ".phtml") == ViewName(name) + ".phtml"
  {
    CamelCaseToDashFromAppend(name, ".phtml", 0);
    StringToLowerAppend(CamelCaseToDash(name), ".phtml");
  }

  /** Where things go: the concatenations of lines 82, 114-121, 132-133 and
      172, and choice of view file names that contain no upper-case letter
      in either naming mode. */
  lemma {:induction false} Layout(req: Request, tmpDir: string)
    ensures var r := Resolve(req, tmpDir);
      && (r.moduleGroup.Some? ==>
            && r.ModulePath() == r.path + "/module/" + r.ModuleName()
            && r.ModuleViewDir() == ViewName(r.ModuleName()))
      && (r.controllerGroup.Some? ==>
            && r.ControllerPath() == r.ModulePath() + "/src/" + r.ModuleName() + "/Controller/"
            && r.ControllerClass() == r.ControllerName() + "Controller"
            && r.ControllerFile() == r.ControllerClass() + ".php"
            && r.ControllerViewPath() ==
                 r.ModulePath() + "/view/" + r.ModuleViewDir() + "/" + ViewName(r.ControllerName()))
      && (r.actionGroup.Some? ==>
            && r.ActionMethod() == LcFirst(r.ActionName()) + "Action"
            && r.ActionViewFile() == ViewName(r.ActionName()) + ".phtml"
            && r.ActionViewPath() == r.ControllerViewPath() + "/" + r.ActionViewFile())
  {
    var r := Resolve(req, tmpDir);
    if r.actionGroup.Some? {
      ViewFileName(r.ActionName());
    }
  }

  /** View directories and view files never contain an upper-case letter,
      and an action method starts with one only when the action name came
      out empty (a raw name made of separators gives "Action"). */
  lemma ViewNamesLowerCase(req: Request, tmpDir: string)
    ensures var r := Resolve(req, tmpDir);
      && (forall k :: 0 <= k < |r.ModuleViewDir()| ==> !IsUpper(r.ModuleViewDir()[k]))
      && (forall k :: 0 <= k < |r.ActionViewFile()| ==> !IsUpper(r.ActionViewFile()[k]))
      && (r.actionGroup.Some? && r.ActionName() != "" ==> !IsUpper(r.ActionMethod()[0]))
      && (r.actionGroup.Some? && r.ActionName() == "" ==> r.ActionMethod() == "Action")
  {
  }

  /** A controller without a moduleGroup: the unset module variables of
      setupParams concatenate as "", so the controller path is rooted at
      "/src//Controller/". */
  lemma ControllerWithoutModule(req: Request, tmpDir: string)
    requires !Truthy(req.moduleName) && Truthy(req.controllerName)
    ensures Resolve(req, tmpDir).ControllerPath() == "/src//Controller/"
  {
    var m := ResolvedNames(tmpDir, NormalizePath(req.path), None, None, None);
    var name := ClassStyleName(req.controllerName, req.ignoreConventions || req.i);
    assert Resolve(req, tmpDir).controllerGroup == Some(ControllerNamesOf(m, name));
    assert ControllerNamesOf(m, name).path == "" + "/src/" + "" + "/Controller/";
    assert "" + "/src/" + "" + "/Controller/" == "/src//Controller/";
  }
}
