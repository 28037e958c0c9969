/** ZFTool\Controller\CreateController: setupParams filling the parameter
    map, and the project, controller, action and module commands as guard
    sequences over the disk, with GitHub and the skeleton templates given
    as oracles. */
module Create {
  import opened Wrappers
  import opened Words
  import opened Names
  import opened CodeModel
  import opened FileSystem
  import Generator

  /** Why a command was aborted through sendError. */
  datatype Reason =
    | PathExists          // the project directory is there already
    | NoGitHubAccess      // no commit from GitHub and no earlier download
    | NoSkeletonDownload  // the skeleton archive could not be fetched
    | NotAnApplication    // no module directory or no application.config.php
    | ControllerExists
    | ControllerMissing
    | ActionExists
    | ModuleExists

  /** An exception or fatal error the commands do not catch. */
  datatype Fault =
    | ReflectionFailed   // Zend\Code reflection of the controller file throws
    | ConfigUnreadable   // application.config.php does not return a configuration

  datatype Outcome =
    | Done(reportedSuccess: bool)  // the command ran to its end
    | Unpack(archive: string)      // projectAction goes on to extract this archive
    | Aborted(reason: Reason, errorLevel: int)
    | Crashed(fault: Fault)

  /** sendError: the console model of an aborted command. */
  function SendError(reason: Reason): (r: Outcome)
    ensures r.Aborted? && r.reason == reason && r.errorLevel == 2
  {
    Aborted(reason, 2)
  }

  /** ZFTool\Model\Skeleton, whose code is not part of this model, as an oracle. */
  datatype Skeleton = Skeleton(
    lastCommit: Option<string>,               // getLastCommit; None when it returns false
    lastZip: string -> string,                // getLastZip(tmpDir); "" when there is none
    tmpFileName: (string, string) -> string,  // getTmpFileName(tmpDir, commit)
    canDownload: string -> bool,              // getSkeletonApp(tmpFile)
    moduleTemplate: string -> string,         // getModule(name)
    moduleConfigTemplate: string -> string)   // getModuleConfig(name)

  // ---------------------------------------------------------------------
  // projectAction: which archive to install from
  // ---------------------------------------------------------------------

  /** The questions projectAction asks the disk and GitHub, in order. */
  datatype Probe =
    | TargetCheck(path: string)
    | CommitLookup
    | CacheLookup(tmpDir: string)
    | ArchiveCheck(file: string)
    | Download(file: string)

  datatype Bootstrap = Bootstrap(outcome: Outcome, probes: seq<Probe>)

  /** Lines 211-243: the decision of projectAction up to the unzip. */
  function ChooseArchive(entries: Entries, path: string, tmpDir: string, sk: Skeleton): Bootstrap
  {
    if path in entries then Bootstrap(SendError(PathExists), [TargetCheck(path)])
    else
      var asked := [TargetCheck(path), CommitLookup];
      var asked := if sk.lastCommit.None? then asked + [CacheLookup(tmpDir)] else asked;
      var tmpFile := if sk.lastCommit.None? then sk.lastZip(tmpDir) else sk.tmpFileName(tmpDir, sk.lastCommit.value);
      if sk.lastCommit.None? && !Truthy(tmpFile) then Bootstrap(SendError(NoGitHubAccess), asked)
      else if tmpFile in entries then Bootstrap(Unpack(tmpFile), asked + [ArchiveCheck(tmpFile)])
      else if !sk.canDownload(tmpFile)
        then Bootstrap(SendError(NoSkeletonDownload), asked + [ArchiveCheck(tmpFile), Download(tmpFile)])
      else Bootstrap(Unpack(tmpFile), asked + [ArchiveCheck(tmpFile), Download(tmpFile)])
  }

  /** The order of the decision: an existing target stops everything before
      GitHub is asked; the cache is consulted only when the commit lookup
      fails, and without a cached archive the command stops; a commit picks
      its own archive; a download happens only for an archive that is not on
      disk, and its failure stops the command. */
  lemma ArchiveDecisionOrder(entries: Entries, path: string, tmpDir: string, sk: Skeleton, b: Bootstrap)
    requires b == ChooseArchive(entries, path, tmpDir, sk)
    ensures |b.probes| > 0 && b.probes[0] == TargetCheck(path)
    ensures b.outcome.Unpack? || b.outcome.Aborted?
    ensures b.outcome.Aborted? ==> b.outcome.errorLevel == 2
    ensures path in entries <==> b.probes == [TargetCheck(path)]
    ensures path in entries ==> b.outcome == SendError(PathExists)
    ensures path !in entries && sk.lastCommit.None? && !Truthy(sk.lastZip(tmpDir)) ==>
      b.outcome == SendError(NoGitHubAccess)
    ensures sk.lastCommit.Some? ==> forall p :: p in b.probes ==> !p.CacheLookup?
    ensures sk.lastCommit.Some? && b.outcome.Unpack? ==>
      b.outcome.archive == sk.tmpFileName(tmpDir, sk.lastCommit.value)
    ensures sk.lastCommit.None? && b.outcome.Unpack? ==> b.outcome.archive == sk.lastZip(tmpDir)
    ensures forall f :: Download(f) in b.probes ==> f !in entries && ArchiveCheck(f) in b.probes
    ensures b.outcome.Unpack? ==>
      b.outcome.archive in entries || (Download(b.outcome.archive) in b.probes && sk.canDownload(b.outcome.archive))
    ensures b.outcome == SendError(NoSkeletonDownload) <==>
      exists f :: b.probes[|b.probes| - 1] == Download(f) && !sk.canDownload(f)
    ensures var tmpFile := if sk.lastCommit.None? then sk.lastZip(tmpDir)
                           else sk.tmpFileName(tmpDir, sk.lastCommit.value);
      (path !in entries && (sk.lastCommit.Some? || Truthy(tmpFile))
       && (tmpFile in entries || sk.canDownload(tmpFile))) ==> b.outcome == Unpack(tmpFile)
    ensures path !in entries ==>
      b.probes[1] == CommitLookup && (sk.lastCommit.None? <==> CacheLookup(tmpDir) in b.probes)
    ensures var tmpFile := if sk.lastCommit.None? then sk.lastZip(tmpDir)
                           else sk.tmpFileName(tmpDir, sk.lastCommit.value);
      (path !in entries && (sk.lastCommit.Some? || Truthy(tmpFile)) && tmpFile !in entries) ==>
        Download(tmpFile) in b.probes && (!sk.canDownload(tmpFile) ==> b.outcome == SendError(NoSkeletonDownload))
  {
  }

  // ---------------------------------------------------------------------
  // What the commands look for and write
  // ---------------------------------------------------------------------

  /** The check every create command starts with. */
  predicate IsApplication(entries: Entries, path: string)
  {
    path + "/module" in entries && path + "/config/application.config.php" in entries
  }

  /** The file doc block of the controller files this controller writes. */
  function FileDoc(moduleName: string): DocBlock
  {
    DocBlock(None, Some("This file was generated by ZFTool."), [Generator.PackageTag(moduleName)])
  }

  /** The controller controllerAction writes: the class createController of
      the generator builds with doc blocks on. */
  function NewControllerFile(n: ResolvedNames): FileData
  {
    ClassFile(Some(FileDoc(n.ModuleName())), Generator.ControllerClass(true, n.ModuleName(), n.ControllerClass()))
  }

  /** The class name methodAction reflects the controller file by. */
  function ControllerClassName(n: ResolvedNames): string
  {
    n.ModuleName() + "\\Controller\\" + n.ControllerClass()
  }

  /** The controller methodAction writes back. */
  function ExtendedControllerFile(n: ResolvedNames, c: ClassModel): FileData
  {
    ClassFile(Some(FileDoc(n.ModuleName())), AddMethod(FixUsage(c), Generator.ActionMethod(true, n.ActionMethod())))
  }

  /** The one-line view script of controllerAction and methodAction. */
  function ViewNote(actionName: string, controllerName: string, moduleName: string): FileData
  {
    Text("Action \"" + actionName + "\", controller \"" + controllerName + "\", module \"" + moduleName + "\".")
  }

  function ApplicationConfigFile(path: string): string { path + "/config/application.config.php" }

  function ApplicationConfigBackup(path: string): string { path + "/config/application.config.old" }

  /** The fixed comment above a rewritten application.config.php. */
  const ApplicationConfigHeader := DocBlock(
    Some("Configuration file generated by ZFTool"),
    Some("The previous configuration file is stored in application.config.old"),
    [Tag("see", "https://github.com/zendframework/ZFTool")])

  /** `require` of the application configuration. */
  function ReadConfig(entries: Entries, file: string): Option<Config>
  {
    if file in entries && entries[file].File? && entries[file].data.ConfigFile?
    then Some(entries[file].data.config) else None
  }

  /** The disk after moduleAction's three mkdirs and two template writes. */
  function ModuleScaffold(entries: Entries, unwritable: set<string>, n: ResolvedNames, sk: Skeleton): Entries
  {
    var dirs := Generator.ModuleDirectories(n.ModulePath(), n.ModuleName(), n.ModuleViewDir());
    var e := AfterMakeDir(AfterMakeDir(AfterMakeDir(entries, unwritable, dirs[0]), unwritable, dirs[1]), unwritable, dirs[2]);
    var e := AfterWrite(e, unwritable, n.ModulePath() + "/Module.php", Text(sk.moduleTemplate(n.ModuleName())));
    AfterWrite(e, unwritable, n.ModulePath() + "/config/module.config.php", Text(sk.moduleConfigTemplate(n.ModuleName())))
  }

  function ModuleScaffoldOps(n: ResolvedNames, sk: Skeleton): seq<Op>
  {
    var dirs := Generator.ModuleDirectories(n.ModulePath(), n.ModuleName(), n.ModuleViewDir());
    [MakeDir(dirs[0]), MakeDir(dirs[1]), MakeDir(dirs[2]),
     Write(n.ModulePath() + "/Module.php", Text(sk.moduleTemplate(n.ModuleName()))),
     Write(n.ModulePath() + "/config/module.config.php", Text(sk.moduleConfigTemplate(n.ModuleName())))]
  }

  /** What registering a module does to the disk. */
  datatype RegistrationStep = RegistrationStep(outcome: Outcome, entries: Entries, ops: seq<Op>)

  /** Lines 649-672: a configuration that cannot be read is fatal; a
      module already listed leaves everything as it is; otherwise the old
      file is copied to the backup and then rewritten with the module
      registered. */
  function Registration(entries: Entries, unwritable: set<string>, path: string, moduleName: string): (s: RegistrationStep)
    ensures ReadConfig(entries, ApplicationConfigFile(path)).None? ==>
      s == RegistrationStep(Crashed(ConfigUnreadable), entries, [])
    ensures ReadConfig(entries, ApplicationConfigFile(path)).Some? ==> s.outcome == Done(true)
    ensures var cfg := ReadConfig(entries, ApplicationConfigFile(path));
      cfg.Some? && moduleName in cfg.value.modules ==> s.entries == entries && s.ops == []
    ensures var cfg := ReadConfig(entries, ApplicationConfigFile(path));
      var file, backup := ApplicationConfigFile(path), ApplicationConfigBackup(path);
      cfg.Some? && moduleName !in cfg.value.modules ==>
        var d := ConfigFile(Some(ApplicationConfigHeader), Register(cfg.value, moduleName));
        s.ops == [CopyFile(file, backup), Write(file, d)]
        && s.entries == AfterWrite(AfterCopy(entries, unwritable, file, backup), unwritable, file, d)
  {
    var file, backup := ApplicationConfigFile(path), ApplicationConfigBackup(path);
    match ReadConfig(entries, file)
    case None => RegistrationStep(Crashed(ConfigUnreadable), entries, [])
    case Some(cfg) =>
      if moduleName in cfg.modules then RegistrationStep(Done(true), entries, [])
      else
        var d := ConfigFile(Some(ApplicationConfigHeader), cfg.(modules := cfg.modules + [moduleName]));
        RegistrationStep(Done(true), AfterWrite(AfterCopy(entries, unwritable, file, backup), unwritable, file, d),
          [CopyFile(file, backup), Write(file, d)])
  }

  // ---------------------------------------------------------------------
  // Properties across commands
  // ---------------------------------------------------------------------

  /** A controller created by controllerAction is found again by the
      reflection of methodAction, and already has indexAction, so adding
      the index action to it is refused. */
  lemma NewControllerIsReflected(n: ResolvedNames)
    ensures Generator.ReflectedController(map[n.ControllerPath() + n.ControllerFile() := File(NewControllerFile(n))],
      n.ControllerPath() + n.ControllerFile(), ControllerClassName(n)) == Some(Generator.ControllerClass(true, n.ModuleName(), n.ControllerClass()))
    ensures HasMethod(FixUsage(Generator.ControllerClass(true, n.ModuleName(), n.ControllerClass())), "indexAction")
  {
    Generator.GeneratedClassShapes(true, n.ModuleName(), n.ControllerClass());
    var c := Generator.ControllerClass(true, n.ModuleName(), n.ControllerClass());
    assert FixUsage(c).methods[0].name == "indexAction";
  }

  /** The controller methodAction writes is reflected under the same name,
      keeps every earlier method in place, and has the new action; running
      the command again with the same action is refused. */
  lemma {:induction false} ExtendedControllerRefusesRepeat(n: ResolvedNames, c: ClassModel)
    requires QualifiedName(c) == ControllerClassName(n)
    ensures var d := ExtendedControllerFile(n, c);
      Reflect(d, ControllerClassName(n)) == Some(d.cls)
      && d.cls.methods[..|c.methods|] == c.methods
      && HasMethod(FixUsage(d.cls), n.ActionMethod())
  {
    var m := Generator.ActionMethod(true, n.ActionMethod());
    var d := ExtendedControllerFile(n, c);
    HasMethodAfterAdd(FixUsage(c), m, n.ActionMethod());
    HasMethodAfterAdd(FixUsage(FixUsage(c)), m, n.ActionMethod());
    assert FixUsage(d.cls).methods == d.cls.methods;
  }

  /** Fixing the uses before or after the conflict check makes no
      difference: it does not touch the methods. */
  lemma FixUsageKeepsMethods(c: ClassModel, name: string)
    ensures HasMethod(FixUsage(c), name) <==> HasMethod(c, name)
  {
    assert FixUsage(c).methods == c.methods;
  }

  /** Registration rewrites application.config.php with the module added
      and leaves the previous content in application.config.old. */
  lemma RegistrationKeepsBackup(entries: Entries, unwritable: set<string>, path: string, cfg: Config, moduleName: string)
    requires CanCopy(entries, unwritable, ApplicationConfigFile(path), ApplicationConfigBackup(path))
    requires CanWrite(entries, unwritable, ApplicationConfigFile(path))
    ensures var file, backup := ApplicationConfigFile(path), ApplicationConfigBackup(path);
      var e := AfterWrite(AfterCopy(entries, unwritable, file, backup), unwritable, file,
        ConfigFile(Some(ApplicationConfigHeader), Register(cfg, moduleName)));
      backup in e && e[backup] == entries[file]
      && ReadConfig(e, file) == Some(Register(cfg, moduleName))
  {
    var file, backup := ApplicationConfigFile(path), ApplicationConfigBackup(path);
    assert file[|file| - 1] != backup[|backup| - 1];
  }

  /** Once moduleAction has made the module's config directory, the module
      path exists, and the registration after it keeps it, so the same
      command is refused afterwards. */
  lemma ScaffoldCreatesModulePath(entries: Entries, unwritable: set<string>, n: ResolvedNames, sk: Skeleton)
    requires n.ModulePath() != []
    requires CanMakeDir(entries, unwritable, n.ModulePath() + "/config")
    ensures n.ModulePath() in ModuleScaffold(entries, unwritable, n, sk)
    ensures n.ModulePath() in Registration(ModuleScaffold(entries, unwritable, n, sk), unwritable, n.path, n.ModuleName()).entries
  {
    var mp := n.ModulePath();
    var dirs := Generator.ModuleDirectories(mp, n.ModuleName(), n.ModuleViewDir());
    assert dirs[0] == mp + "/" + "config";
    AncestorOfSubpath(mp, "config");
    MakeDirOnlyAdds(entries, unwritable, dirs[0]);
    var e1 := AfterMakeDir(entries, unwritable, dirs[0]);
    assert mp in e1;
    MakeDirOnlyAdds(e1, unwritable, dirs[1]);
    var e2 := AfterMakeDir(e1, unwritable, dirs[1]);
    MakeDirOnlyAdds(e2, unwritable, dirs[2]);
    var e3 := AfterMakeDir(e2, unwritable, dirs[2]);
    assert mp in e3;
    var e4 := AfterWrite(e3, unwritable, mp + "/Module.php", Text(sk.moduleTemplate(n.ModuleName())));
    assert mp in e4;
    RegistrationOnlyAdds(ModuleScaffold(entries, unwritable, n, sk), unwritable, n.path, n.ModuleName());
  }

  /** Registration removes no path: the copy and the write only add or
      overwrite entries. */
  lemma RegistrationOnlyAdds(entries: Entries, unwritable: set<string>, path: string, moduleName: string)
    ensures entries.Keys <= Registration(entries, unwritable, path, moduleName).entries.Keys
  {
  }

  // ---------------------------------------------------------------------
  // The controller object
  // ---------------------------------------------------------------------

  class CreateController {
    /** $this->requestParams. */
    var requestParams: map<string, string>

    constructor ()
      ensures requestParams == map[]
    {
      requestParams := map[];
    }

    /** setupParams: derives every name and path and sets it, group by
        group, in the parameter map. A local of a group that is absent reads
        as "" in the groups after it. */
    method SetupParams(req: Request, tmpDir: string)
      modifies this
      ensures requestParams == Params(Resolve(req, tmpDir))
    {
      ghost var n := Resolve(req, tmpDir);
      var path := RTrim(req.path, '/');
      if !Truthy(path) {
        path := ".";
      }
      requestParams := map["tmpDir" := tmpDir, "path" := path];
      var ignoreConventions := req.ignoreConventions || req.i;

      var moduleName, modulePath, moduleViewDir := "", "", "";
      if Truthy(req.moduleName) {
        moduleName, modulePath, moduleViewDir := SetModuleParams(path, req.moduleName, ignoreConventions);
      }
      assert requestParams == ModuleParams(BaseParams(n), n);

      var controllerViewPath := "";
      if Truthy(req.controllerName) {
        controllerViewPath := SetControllerParams(moduleName, modulePath, moduleViewDir, req.controllerName,
          ignoreConventions, n);
      }
      assert requestParams == ControllerParams(ModuleParams(BaseParams(n), n), n);

      if Truthy(req.actionName) {
        SetActionParams(controllerViewPath, req.actionName, ignoreConventions, n);
      }
    }

    /** Lines 64-94. */
    method SetModuleParams(path: string, rawName: string, ignoreConventions: bool)
      returns (moduleName: string, modulePath: string, moduleViewDir: string)
      modifies this
      ensures ModuleNamesOf(path, ClassStyleName(rawName, ignoreConventions)) == ModuleNames(moduleName, modulePath, moduleViewDir)
      ensures requestParams == old(requestParams)["moduleName" := moduleName]["modulePath" := modulePath]
                                                 ["moduleViewDir" := moduleViewDir]
    {
      moduleName := rawName;
      if !ignoreConventions {
        moduleName := UnderscoreToCamelCase(moduleName);
        moduleName := DashToCamelCase(moduleName);
      } else {
        moduleName := DashToUnderscore(moduleName);
      }
      modulePath := path + "/module/" + moduleName;
      moduleViewDir := CamelCaseToDash(moduleName);
      moduleViewDir := StringToLower(moduleViewDir);
      requestParams := requestParams["moduleName" := moduleName];
      requestParams := requestParams["modulePath" := modulePath];
      requestParams := requestParams["moduleViewDir" := moduleViewDir];
    }

    /** Lines 96-141; `m` holds the module values set before (or "" for
        each). */
    method SetControllerParams(moduleName: string, modulePath: string, moduleViewDir: string,
                               rawName: string, ignoreConventions: bool, ghost m: ResolvedNames)
      returns (controllerViewPath: string)
      requires moduleName == m.ModuleName() && modulePath == m.ModulePath() && moduleViewDir == m.ModuleViewDir()
      modifies this
      ensures var c := ControllerNamesOf(m, ClassStyleName(rawName, ignoreConventions));
        controllerViewPath == c.viewPath
        && requestParams == old(requestParams)["controllerName" := c.name]["controllerPath" := c.path]
                                              ["controllerClass" := c.cls]["controllerFile" := c.file]
                                              ["controllerViewPath" := c.viewPath]
    {
      var controllerName := rawName;
      if !ignoreConventions {
        controllerName := UnderscoreToCamelCase(controllerName);
        controllerName := DashToCamelCase(controllerName);
      } else {
        controllerName := DashToUnderscore(controllerName);
      }
      var controllerPath := modulePath + "/src/" + moduleName + "/Controller/";
      var controllerClass := controllerName + "Controller";
      var controllerFile := controllerClass + ".php";
      var controllerViewDir := CamelCaseToDash(controllerName);
      controllerViewDir := StringToLower(controllerViewDir);
      controllerViewPath := modulePath + "/view/" + moduleViewDir + "/" + controllerViewDir;
      requestParams := requestParams["controllerName" := controllerName];
      requestParams := requestParams["controllerPath" := controllerPath];
      requestParams := requestParams["controllerClass" := controllerClass];
      requestParams := requestParams["controllerFile" := controllerFile];
      requestParams := requestParams["controllerViewPath" := controllerViewPath];
    }

    /** Lines 143-179. */
    method SetActionParams(controllerViewPath: string, rawName: string, ignoreConventions: bool, ghost m: ResolvedNames)
      requires controllerViewPath == m.ControllerViewPath()
      modifies this
      ensures var a := ActionNamesOf(m, ActionStyleName(rawName, ignoreConventions));
        requestParams == old(requestParams)["actionName" := a.name]["actionMethod" := a.methodName]
                                           ["actionViewFile" := a.viewFile]["actionViewPath" := a.viewPath]
    {
      var actionName := rawName;
      if !ignoreConventions {
        actionName := UnderscoreToDash(actionName);
        actionName := DashToCamelCase(actionName);
      } else {
        actionName := DashToUnderscore(actionName);
      }
      var actionMethod := LcFirst(actionName) + "Action";
      var actionViewFile := CamelCaseToDash(actionName + ".phtml");
      actionViewFile := StringToLower(actionViewFile);
      var actionViewPath := controllerViewPath + "/" + actionViewFile;
      requestParams := requestParams["actionName" := actionName];
      requestParams := requestParams["actionMethod" := actionMethod];
      requestParams := requestParams["actionViewFile" := actionViewFile];
      requestParams := requestParams["actionViewPath" := actionViewPath];
    }

    /** projectAction up to the unzip: the probes it makes and the archive
        it chooses, or why it stops. */
    method ProjectAction(req: Request, tmpDir: string, disk: Disk, sk: Skeleton)
      returns (r: Outcome, probes: seq<Probe>)
      modifies this
      ensures requestParams == Params(Resolve(req, tmpDir))
      ensures Bootstrap(r, probes) == ChooseArchive(disk.entries, Resolve(req, tmpDir).path, tmpDir, sk)
    {
      SetupParams(req, tmpDir);
      ParamsReadBack(Resolve(req, tmpDir));
      var path := Get(requestParams, "path");
      var tmp := Get(requestParams, "tmpDir");
      ghost var b := ChooseArchive(disk.entries, path, tmp, sk);

      probes := [TargetCheck(path)];
      if disk.Exists(path) {
        assert b == Bootstrap(SendError(PathExists), probes);
        return SendError(PathExists), probes;
      }

      probes := probes + [CommitLookup];
      var tmpFile;
      if sk.lastCommit.None? {
        probes := probes + [CacheLookup(tmp)];
        tmpFile := sk.lastZip(tmp);
        if !Truthy(tmpFile) {
          assert b == Bootstrap(SendError(NoGitHubAccess), probes);
          return SendError(NoGitHubAccess), probes;
        }
      } else {
        tmpFile := sk.tmpFileName(tmp, sk.lastCommit.value);
      }

      probes := probes + [ArchiveCheck(tmpFile)];
      if !disk.Exists(tmpFile) {
        probes := probes + [Download(tmpFile)];
        if !sk.canDownload(tmpFile) {
          assert b == Bootstrap(SendError(NoSkeletonDownload), probes);
          return SendError(NoSkeletonDownload), probes;
        }
      }
      r := Unpack(tmpFile);
      assert b == Bootstrap(r, probes);
    }

    /** controllerAction: the two guards, then the controller class, the
        view directory when it is missing, and the index view script. */
    method ControllerAction(req: Request, tmpDir: string, disk: Disk) returns (r: Outcome)
      modifies this, disk
      ensures requestParams == Params(Resolve(req, tmpDir))
      ensures var n := Resolve(req, tmpDir);
        var f := n.ControllerPath() + n.ControllerFile();
        && (!IsApplication(old(disk.entries), n.path) ==> r == SendError(NotAnApplication))
        && (IsApplication(old(disk.entries), n.path) && f in old(disk.entries) ==> r == SendError(ControllerExists))
        && (r.Aborted? ==> disk.entries == old(disk.entries) && disk.log == old(disk.log))
        && (IsApplication(old(disk.entries), n.path) && f !in old(disk.entries) ==>
              var e1 := AfterWrite(old(disk.entries), disk.unwritable, f, NewControllerFile(n));
              var dir := n.ControllerViewPath();
              var e2 := if dir in e1 then e1 else AfterMakeDir(e1, disk.unwritable, dir);
              var v := dir + "/index.phtml";
              var note := ViewNote("index", n.ControllerName(), n.ModuleName());
              r == Done(CanWrite(old(disk.entries), disk.unwritable, f) && CanWrite(e2, disk.unwritable, v))
              && disk.entries == AfterWrite(e2, disk.unwritable, v, note)
              && disk.log == old(disk.log) + [Write(f, NewControllerFile(n))]
                             + (if dir in e1 then [] else [MakeDir(dir)]) + [Write(v, note)])
    {
      SetupParams(req, tmpDir);
      var n := Resolve(req, tmpDir);
      ParamsReadBack(n);
      var path := Get(requestParams, "path");
      var controllerFilePath := Get(requestParams, "controllerPath") + Get(requestParams, "controllerFile");
      var controllerViewPath := Get(requestParams, "controllerViewPath");

      if !disk.Exists(path + "/module") || !disk.Exists(path + "/config/application.config.php") {
        return SendError(NotAnApplication);
      }
      if disk.Exists(controllerFilePath) {
        return SendError(ControllerExists);
      }

      var controllerFlag := disk.PutContents(controllerFilePath, NewControllerFile(n));
      if !disk.Exists(controllerViewPath) {
        var _ := disk.MakeDirectory(controllerViewPath);
      }
      var viewScriptFlag := disk.PutContents(controllerViewPath + "/index.phtml",
        ViewNote("index", Get(requestParams, "controllerName"), Get(requestParams, "moduleName")));
      r := Done(controllerFlag && viewScriptFlag);
    }

    /** methodAction: three guards, the reflection, then the controller and
        the view script of the new action. */
    method MethodAction(req: Request, tmpDir: string, disk: Disk) returns (r: Outcome)
      modifies this, disk
      ensures requestParams == Params(Resolve(req, tmpDir))
      ensures var n := Resolve(req, tmpDir);
        var f := n.ControllerPath() + n.ControllerFile();
        var reflected := Generator.ReflectedController(old(disk.entries), f, ControllerClassName(n));
        && (!IsApplication(old(disk.entries), n.path) ==> r == SendError(NotAnApplication))
        && (IsApplication(old(disk.entries), n.path) && f !in old(disk.entries) ==> r == SendError(ControllerMissing))
        && (IsApplication(old(disk.entries), n.path) && f in old(disk.entries) && reflected.None? ==>
              r == Crashed(ReflectionFailed))
        && ((IsApplication(old(disk.entries), n.path) && reflected.Some?
               && HasMethod(FixUsage(reflected.value), n.ActionMethod()))
              ==> r == SendError(ActionExists))
        && ((IsApplication(old(disk.entries), n.path) && reflected.Some?
               && !HasMethod(FixUsage(reflected.value), n.ActionMethod()))
              ==> r.Done?)
        && (!r.Done? ==> disk.entries == old(disk.entries) && disk.log == old(disk.log))
        && (r.Done? ==>
              IsApplication(old(disk.entries), n.path) && reflected.Some?
              && !HasMethod(FixUsage(reflected.value), n.ActionMethod())
              && var d := ExtendedControllerFile(n, reflected.value);
                 var e1 := AfterWrite(old(disk.entries), disk.unwritable, f, d);
                 var note := ViewNote(n.ActionName(), n.ControllerName(), n.ModuleName());
                 r == Done(CanWrite(old(disk.entries), disk.unwritable, f) && CanWrite(e1, disk.unwritable, n.ActionViewPath()))
                 && disk.entries == AfterWrite(e1, disk.unwritable, n.ActionViewPath(), note)
                 && disk.log == old(disk.log) + [Write(f, d), Write(n.ActionViewPath(), note)])
    {
      SetupParams(req, tmpDir);
      var n := Resolve(req, tmpDir);
      ParamsReadBack(n);
      var path := Get(requestParams, "path");
      var moduleName := Get(requestParams, "moduleName");
      var controllerFilePath := Get(requestParams, "controllerPath") + Get(requestParams, "controllerFile");
      var actionMethod := Get(requestParams, "actionMethod");

      if !disk.Exists(path + "/module") || !disk.Exists(path + "/config/application.config.php") {
        return SendError(NotAnApplication);
      }
      if !disk.Exists(controllerFilePath) {
        return SendError(ControllerMissing);
      }

      var reflected := Generator.ReflectedController(disk.entries, controllerFilePath,
        moduleName + "\\Controller\\" + Get(requestParams, "controllerClass"));
      if reflected.None? {
        return Crashed(ReflectionFailed);
      }
      var code := FixUsage(reflected.value);
      if HasMethod(code, actionMethod) {
        return SendError(ActionExists);
      }
      code := AddMethod(code, Generator.ActionMethod(true, actionMethod));

      var controllerFlag := disk.PutContents(controllerFilePath, ClassFile(Some(FileDoc(moduleName)), code));
      var viewScriptFlag := disk.PutContents(Get(requestParams, "actionViewPath"),
        ViewNote(Get(requestParams, "actionName"), Get(requestParams, "controllerName"), moduleName));
      r := Done(controllerFlag && viewScriptFlag);
    }

    /** moduleAction: two guards, the module directories and templates, then
        the registration in application.config.php. */
    method ModuleAction(req: Request, tmpDir: string, disk: Disk, sk: Skeleton) returns (r: Outcome)
      modifies this, disk
      ensures requestParams == Params(Resolve(req, tmpDir))
      ensures var n := Resolve(req, tmpDir);
        (!IsApplication(old(disk.entries), n.path) ==> r == SendError(NotAnApplication))
        && (IsApplication(old(disk.entries), n.path) && n.ModulePath() in old(disk.entries) ==> r == SendError(ModuleExists))
        && (r.Aborted? ==> disk.entries == old(disk.entries) && disk.log == old(disk.log))
      ensures var n := Resolve(req, tmpDir);
        var e0 := ModuleScaffold(old(disk.entries), disk.unwritable, n, sk);
        IsApplication(old(disk.entries), n.path) && n.ModulePath() !in old(disk.entries) ==>
          var reg := Registration(e0, disk.unwritable, n.path, n.ModuleName());
          r == reg.outcome && disk.entries == reg.entries
          && disk.log == old(disk.log) + ModuleScaffoldOps(n, sk) + reg.ops
    {
      SetupParams(req, tmpDir);
      ghost var n := Resolve(req, tmpDir);
      ParamsReadBack(n);
      var path := Get(requestParams, "path");
      var moduleName := Get(requestParams, "moduleName");
      var modulePath := Get(requestParams, "modulePath");
      var moduleViewDir := Get(requestParams, "moduleViewDir");

      if !disk.Exists(path + "/module") || !disk.Exists(path + "/config/application.config.php") {
        return SendError(NotAnApplication);
      }
      if disk.Exists(modulePath) {
        return SendError(ModuleExists);
      }

      CreateModuleFiles(disk, modulePath, moduleName, moduleViewDir, sk, n);
      r := RegisterModule(disk, path, moduleName);
    }

    /** Lines 632-646: the module directories, then Module.php and
        module.config.php from the skeleton templates, whatever the
        results. */
    method CreateModuleFiles(disk: Disk, modulePath: string, moduleName: string, moduleViewDir: string,
                             sk: Skeleton, ghost n: ResolvedNames)
      requires modulePath == n.ModulePath() && moduleName == n.ModuleName() && moduleViewDir == n.ModuleViewDir()
      modifies disk
      ensures disk.entries == ModuleScaffold(old(disk.entries), disk.unwritable, n, sk)
      ensures disk.log == old(disk.log) + ModuleScaffoldOps(n, sk)
    {
      var _ := disk.MakeDirectory(modulePath + "/config");
      var _ := disk.MakeDirectory(modulePath + "/src/" + moduleName + "/Controller");
      var _ := disk.MakeDirectory(modulePath + "/view/" + moduleViewDir);
      var _ := disk.PutContents(modulePath + "/Module.php", Text(sk.moduleTemplate(moduleName)));
      var _ := disk.PutContents(modulePath + "/config/module.config.php", Text(sk.moduleConfigTemplate(moduleName)));
    }

    /** Lines 649-685: the module is appended to the `modules` list in
        place; only then is the old file copied to application.config.old
        and the new one written. */
    method RegisterModule(disk: Disk, path: string, moduleName: string) returns (r: Outcome)
      modifies disk
      ensures var reg := Registration(old(disk.entries), disk.unwritable, path, moduleName);
        r == reg.outcome && disk.entries == reg.entries && disk.log == old(disk.log) + reg.ops
    {
      var applicationConfigFile := path + "/config/application.config.php";
      var read := ReadConfig(disk.entries, applicationConfigFile);
      if read.None? {
        return Crashed(ConfigUnreadable);
      }
      var application := read.value;
      if moduleName !in application.modules {
        application := application.(modules := application.modules + [moduleName]);
        var _ := disk.Copy(applicationConfigFile, path + "/config/application.config.old");
        var _ := disk.PutContents(applicationConfigFile, ConfigFile(Some(ApplicationConfigHeader), application));
      }
      r := Done(true);
    }
  }
}
