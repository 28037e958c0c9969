/** ZFTool\Generator\ModuleGenerator: the doc-block policy, the shape of
    every file it generates, and the order of its mkdirs, backup copy and
    writes. */
module Generator {
  import opened Wrappers
  import opened Words
  import opened CodeModel
  import opened FileSystem

  /** The getters of ZFTool\Options\RequestOptions that the generator reads. */
  datatype RequestOptions = RequestOptions(
    flagNoDocBlocks: bool,
    moduleName: string,
    modulePath: string,
    moduleViewDir: string,
    controllerName: string,
    controllerKey: string,
    controllerClass: string,
    controllerPath: string,
    controllerFile: string,
    controllerViewPath: string,
    actionName: string,
    actionMethod: string,
    actionViewPath: string)

  // ---------------------------------------------------------------------
  // Tags and doc blocks
  // ---------------------------------------------------------------------

  /** generatePackageTag. */
  function PackageTag(description: string): Tag { Tag("package", description) }

  /** generateReturnTag. */
  function ReturnTag(description: string): Tag { Tag("return", description) }

  /** generateSeeTag: the link to the project's home page. */
  function SeeTag(): Tag { Tag("see", "https://github.com/RalfEggert/FrilleZFTool") }

  /** A doc block when doc blocks are switched on, none otherwise. */
  function Documented(flag: bool, doc: DocBlock): Option<DocBlock>
  {
    if flag then Some(doc) else None
  }

  /** The file doc block of a generated controller or Module.php. */
  function GeneratedFileDoc(moduleName: string): DocBlock
  {
    DocBlock(Some("This file was generated by ZFTool."), None, [PackageTag(moduleName), SeeTag()])
  }

  // ---------------------------------------------------------------------
  // Methods
  // ---------------------------------------------------------------------

  const NewViewModel := Code("return new ViewModel();")

  /** generateActionMethod. */
  function ActionMethod(flag: bool, name: string): Method
  {
    Method(name, NewViewModel, Documented(flag, DocBlock(
      Some("Method " + name),
      Some("Please add a proper description for this action"),
      [ReturnTag("ViewModel")])))
  }

  /** generateGetConfigMethod: returns the module configuration file. */
  function GetConfigMethod(flag: bool): Method
  {
    Method("getConfig",
      ReturnValue(Str("include __DIR__ . '/config/module.config.php'")),
      Documented(flag, DocBlock(Some("Get module configuration"), None, [ReturnTag("array")])))
  }

  /** generateGetAutoloaderConfigMethod: a standard autoloader for the
      module's namespace under src/. */
  function GetAutoloaderConfigMethod(flag: bool): Method
  {
    var namespaces := Arr([ArrayEntry(None, Str("__NAMESPACE__ => __DIR__ . '/src/' . __NAMESPACE__"))]);
    var loader := Arr([ArrayEntry(Some("namespaces"), namespaces)]);
    Method("getAutoloaderConfig",
      ReturnValue(Arr([ArrayEntry(Some("Zend\\Loader\\StandardAutoloader"), loader)])),
      Documented(flag, DocBlock(Some("Get autoloader configuration"), None, [ReturnTag("array")])))
  }

  /** The action method always has the given name and the fixed body, and
      carries its doc block exactly when doc blocks are on. */
  lemma ActionMethodShape(flag: bool, name: string)
    ensures ActionMethod(flag, name).name == name
    ensures ActionMethod(flag, name).body == Code("return new ViewModel();")
    ensures ActionMethod(flag, name).docBlock.Some? <==> flag
    ensures flag ==> ActionMethod(flag, name).docBlock.value.shortDescription == Some("Method " + name)
    ensures flag ==> ActionMethod(flag, name).docBlock.value.tags == [Tag("return", "ViewModel")]
  {
  }

  // ---------------------------------------------------------------------
  // Files
  // ---------------------------------------------------------------------

  /** createConfiguration (no previous file) and updateConfiguration (the
      backup file named in the long description). */
  function ConfigurationFile(flag: bool, configData: Config, oldFile: Option<string>): FileData
  {
    var long := if oldFile.Some? then Some("The previous configuration file is stored in " + oldFile.value) else None;
    ConfigFile(Documented(flag, DocBlock(Some("Configuration file generated by ZFTool"), long, [SeeTag()])), configData)
  }

  function ControllerClass(flag: bool, moduleName: string, controllerClass: string): ClassModel
  {
    ClassModel(
      moduleName + "\\Controller",
      [ActionControllerUse, ViewModelUse],
      controllerClass,
      Some("AbstractActionController"),
      Documented(flag, DocBlock(
        Some("Class " + controllerClass),
        Some("Please add a proper description for the " + controllerClass),
        [PackageTag(moduleName)])),
      [ActionMethod(flag, "indexAction")])
  }

  function ControllerFileOf(flag: bool, moduleName: string, controllerClass: string): FileData
  {
    ClassFile(Documented(flag, GeneratedFileDoc(moduleName)), ControllerClass(flag, moduleName, controllerClass))
  }

  function ModuleClass(flag: bool, moduleName: string): ClassModel
  {
    ClassModel(
      moduleName,
      [],
      "Module",
      None,
      Documented(flag, DocBlock(
        Some("Module"),
        Some("Please add a proper description for the " + moduleName + " module"),
        [PackageTag(moduleName)])),
      [GetConfigMethod(flag), GetAutoloaderConfigMethod(flag)])
  }

  function ModuleFileOf(flag: bool, moduleName: string): FileData
  {
    ClassFile(Documented(flag, GeneratedFileDoc(moduleName)), ModuleClass(flag, moduleName))
  }

  /** The directories createModule makes under the module path. */
  function ModuleDirectories(modulePath: string, moduleName: string, moduleViewDir: string): seq<string>
  {
    [modulePath + "/config",
     modulePath + "/src/" + moduleName + "/Controller",
     modulePath + "/view/" + moduleViewDir]
  }

  /** The lines of a generated view script. */
  function ViewScriptLines(actionName: string, controllerName: string, moduleName: string): seq<string>
  {
    ["?>",
     "<div class=\"jumbotron\">",
     "<h1>Action \"" + actionName + "\"</h1>",
     "<p>Created for Controller \"" + controllerName + "\" in Module \"" + moduleName + "\"</p>",
     "</div>"]
  }

  function ViewScriptFileOf(flag: bool, actionName: string, controllerName: string, moduleName: string): FileData
  {
    ScriptFile(
      Documented(flag, DocBlock(Some("View script generated by ZFTool"), None, [PackageTag(moduleName)])),
      Join(ViewScriptLines(actionName, controllerName, moduleName), '\n'))
  }

  /** The body of a view script consists of its five lines, separated by
      line feeds, as long as the names themselves hold no line feed. */
  lemma ViewScriptHasFiveLines(flag: bool, actionName: string, controllerName: string, moduleName: string)
    requires '\n' !in actionName && '\n' !in controllerName && '\n' !in moduleName
    ensures Split(ViewScriptFileOf(flag, actionName, controllerName, moduleName).body, '\n')
      == ViewScriptLines(actionName, controllerName, moduleName)
    ensures var lines := Split(ViewScriptFileOf(flag, actionName, controllerName, moduleName).body, '\n');
      |lines| == 5 && lines[0] == "?>" && lines[1] == "<div class=\"jumbotron\">"
      && lines[2] == "<h1>Action \"" + actionName + "\"</h1>"
      && lines[3] == "<p>Created for Controller \"" + controllerName + "\" in Module \"" + moduleName + "\"</p>"
      && lines[4] == "</div>"
  {
    var lines := ViewScriptLines(actionName, controllerName, moduleName);
    assert '\n' !in lines[2] by {
      assert lines[2] == "<h1>Action \"" + actionName + "\"</h1>";
    }
    assert '\n' !in lines[3] by {
      assert lines[3] == "<p>Created for Controller \"" + controllerName + "\" in Module \"" + moduleName + "\"</p>";
    }
    SplitJoin(lines, '\n');
  }

  /** The class updateController writes: the reflected class with its uses
      fixed and one action method more. */
  function UpdatedClass(flag: bool, c: ClassModel, actionMethod: string): ClassModel
  {
    AddMethod(FixUsage(c), ActionMethod(flag, actionMethod))
  }

  function UpdatedControllerFile(flag: bool, moduleName: string, c: ClassModel, actionMethod: string): FileData
  {
    ClassFile(
      Documented(flag, DocBlock(Some("Configuration file was generated by ZFTool."), None,
        [PackageTag(moduleName), SeeTag()])),
      UpdatedClass(flag, c, actionMethod))
  }

  /** Every file the generator writes carries a doc block exactly when doc
      blocks are switched on. */
  lemma DocBlockPolicy(flag: bool, o: RequestOptions, c: ClassModel, configData: Config, oldFile: Option<string>)
    ensures ConfigurationFile(flag, configData, oldFile).docBlock.Some? <==> flag
    ensures ControllerFileOf(flag, o.moduleName, o.controllerClass).docBlock.Some? <==> flag
    ensures ModuleFileOf(flag, o.moduleName).docBlock.Some? <==> flag
    ensures ViewScriptFileOf(flag, o.actionName, o.controllerName, o.moduleName).docBlock.Some? <==> flag
    ensures UpdatedControllerFile(flag, o.moduleName, c, o.actionMethod).docBlock.Some? <==> flag
  {
  }

  /** So does every class and method it generates, the action method added
      to a reflected class included. */
  lemma ClassDocBlockPolicy(flag: bool, o: RequestOptions, c: ClassModel)
    ensures ControllerClass(flag, o.moduleName, o.controllerClass).docBlock.Some? <==> flag
    ensures ModuleClass(flag, o.moduleName).docBlock.Some? <==> flag
    ensures forall k :: 0 <= k < |ModuleClass(flag, o.moduleName).methods| ==>
      (ModuleClass(flag, o.moduleName).methods[k].docBlock.Some? <==> flag)
    ensures UpdatedClass(flag, c, o.actionMethod).methods[|c.methods|].docBlock.Some? <==> flag
  {
  }

  /** Shapes of createModule and createController: Module in namespace M
      with getConfig then getAutoloaderConfig; <M>\Controller\<class>
      extending AbstractActionController with the two uses and the single
      method indexAction. */
  lemma GeneratedClassShapes(flag: bool, moduleName: string, controllerClass: string)
    ensures var m := ModuleClass(flag, moduleName);
      m.namespace == moduleName && m.name == "Module"
      && |m.methods| == 2 && m.methods[0].name == "getConfig" && m.methods[1].name == "getAutoloaderConfig"
    ensures var c := ControllerClass(flag, moduleName, controllerClass);
      QualifiedName(c) == moduleName + "\\Controller\\" + controllerClass
      && c.uses == [ActionControllerUse, ViewModelUse]
      && c.parent == Some("AbstractActionController")
      && |c.methods| == 1 && c.methods[0].name == "indexAction"
  {
    var c := ControllerClass(flag, moduleName, controllerClass);
    assert QualifiedName(c) == (moduleName + "\\Controller") + "\\" + controllerClass;
  }

  /** updateController keeps every method of the reflected class in place,
      appends exactly one, and afterwards a method name is taken iff it was
      taken before or is the new action's: adding the same action again
      conflicts. */
  lemma {:induction false} UpdateAppendsOne(flag: bool, c: ClassModel, actionMethod: string, name: string)
    ensures var u := UpdatedClass(flag, c, actionMethod);
      |u.methods| == |c.methods| + 1 && u.methods[..|c.methods|] == c.methods
      && u.methods[|c.methods|] == ActionMethod(flag, actionMethod)
      && u.namespace == c.namespace && u.name == c.name
    ensures HasMethod(UpdatedClass(flag, c, actionMethod), name)
      <==> HasMethod(c, name) || SameMethodName(actionMethod, name)
  {
    HasMethodAfterAdd(FixUsage(c), ActionMethod(flag, actionMethod), name);
    assert FixUsage(c).methods == c.methods;
  }

  /** A freshly generated controller accepts any action other than
      indexAction; afterwards it holds indexAction and then the new action,
      and a second update with that action conflicts. */
  lemma {:induction false} CreateThenUpdate(flag: bool, moduleName: string, controllerClass: string, actionMethod: string)
    requires !SameMethodName(actionMethod, "indexAction")
    ensures !HasMethod(ControllerClass(flag, moduleName, controllerClass), actionMethod)
    ensures var u := UpdatedClass(flag, ControllerClass(flag, moduleName, controllerClass), actionMethod);
      |u.methods| == 2 && u.methods[0].name == "indexAction" && u.methods[1].name == actionMethod
      && HasMethod(u, actionMethod)
  {
    var c := ControllerClass(flag, moduleName, controllerClass);
    UpdateAppendsOne(flag, c, actionMethod, actionMethod);
  }

  // ---------------------------------------------------------------------
  // The backup name of updateConfiguration
  // ---------------------------------------------------------------------

  /** str_replace('.php', '.old', $configFile). */
  function BackupName(configFile: string): (r: string)
    ensures |r| == |configFile|
  {
    ReplaceAll(configFile, ".php", ".old")
  }

  /** The backup is a different file exactly when the name contains ".php";
      otherwise the copy goes onto the file itself. */
  lemma BackupIsElsewhereIffPhp(configFile: string)
    ensures BackupName(configFile) != configFile <==> Occurs(configFile, ".php")
  {
    ReplaceAllChangesIffOccurs(configFile, ".php", ".old");
  }

  /** str_replace leaves no ".php" behind: ".old" neither contains it nor
      can start or end one together with the characters around it. */
  lemma {:induction false} BackupNameHasNoPhp(configFile: string)
    ensures !Occurs(BackupName(configFile), ".php")
    decreases |configFile|
  {
    var s := configFile;
    var r := BackupName(s);
    if |s| < 4 {
      assert forall i :: !OccursAt(r, ".php", i);
    } else if s[..4] == ".php" {
      var t := s[4..];
      var rt := BackupName(t);
      BackupNameHasNoPhp(t);
      assert r == ".old" + rt;
      forall i ensures !OccursAt(r, ".php", i) {
        if 0 <= i && i + 4 <= |r| {
          PhpAt(r, i);
          if 4 <= i {
            PhpAt(rt, i - 4);
            assert !OccursAt(rt, ".php", i - 4);
          }
        }
      }
    } else {
      var t := s[1..];
      var rt := BackupName(t);
      BackupNameHasNoPhp(t);
      assert r == [s[0]] + rt;
      forall i ensures !OccursAt(r, ".php", i) {
        if 0 <= i && i + 4 <= |r| {
          PhpAt(r, i);
          if i == 0 {
            PhpAt(s, 0);
            NoPhpFromTail(t);
          } else {
            PhpAt(rt, i - 1);
            assert !OccursAt(rt, ".php", i - 1);
          }
        }
      }
    }
  }

  /** ".php" at `i`, character by character. */
  lemma PhpAt(s: string, i: nat)
    requires i + 4 <= |s|
    ensures OccursAt(s, ".php", i) <==>
      s[i] == '.' && s[i + 1] == 'p' && s[i + 2] == 'h' && s[i + 3] == 'p'
  {
    assert s[i..i + 4] == [s[i], s[i + 1], s[i + 2], s[i + 3]];
  }

  /** A backup name starts with "php" only where the file name does. */
  lemma NoPhpFromTail(t: string)
    requires 3 <= |t|
    ensures var r := BackupName(t);
      r[0] == 'p' && r[1] == 'h' && r[2] == 'p' ==> t[0] == 'p' && t[1] == 'h' && t[2] == 'p'
  {
    ReplaceAllHead(t, ".php", ".old");
    ReplaceAllHead(t[1..], ".php", ".old");
    ReplaceAllHead(t[2..], ".php", ".old");
    assert t[1..][1..] == t[2..];
  }

  /** When the backup succeeds and is a different file, the content from
      before the update survives in it and the new configuration is in
      the original place. */
  lemma UpdateKeepsPrevious(entries: Entries, unwritable: set<string>, configFile: string, d: FileData)
    requires Occurs(configFile, ".php")
    requires CanCopy(entries, unwritable, configFile, BackupName(configFile))
    requires CanWrite(entries, unwritable, configFile)
    ensures var e := AfterWrite(AfterCopy(entries, unwritable, configFile, BackupName(configFile)), unwritable, configFile, d);
      BackupName(configFile) in e && e[BackupName(configFile)] == entries[configFile]
      && configFile in e && e[configFile] == File(d)
  {
    BackupIsElsewhereIffPhp(configFile);
  }

  // ---------------------------------------------------------------------
  // The generator object
  // ---------------------------------------------------------------------

  datatype GeneratorError =
    | ReflectionFailed  // FileReflection or getClass throws
    | ActionExists      // "New action already exists within controller"

  /** The class updateController reflects, if the controller file holds it. */
  function ReflectedController(entries: Entries, filePath: string, qualifiedName: string): Option<ClassModel>
  {
    if filePath in entries && entries[filePath].File? then Reflect(entries[filePath].data, qualifiedName) else None
  }

  class ModuleGenerator {
    var flagCreateDocBlocks: bool
    const requestOptions: RequestOptions

    constructor (requestOptions: RequestOptions)
      ensures this.requestOptions == requestOptions
      ensures flagCreateDocBlocks == !requestOptions.flagNoDocBlocks
    {
      this.requestOptions := requestOptions;
      flagCreateDocBlocks := true;
      flagCreateDocBlocks := !requestOptions.flagNoDocBlocks;
    }

    method CreateConfiguration(disk: Disk, configData: Config) returns (ok: bool)
      modifies disk
      ensures var f := requestOptions.modulePath + "/config/module.config.php";
        var d := ConfigurationFile(flagCreateDocBlocks, configData, None);
        ok == CanWrite(old(disk.entries), disk.unwritable, f)
        && disk.entries == AfterWrite(old(disk.entries), disk.unwritable, f, d)
        && disk.log == old(disk.log) + [Write(f, d)]
    {
      var configFile := requestOptions.modulePath + "/config/module.config.php";
      ok := disk.PutContents(configFile, ConfigurationFile(flagCreateDocBlocks, configData, None));
    }

    method CreateController(disk: Disk) returns (ok: bool)
      modifies disk
      ensures var f := requestOptions.controllerPath + requestOptions.controllerFile;
        var d := ControllerFileOf(flagCreateDocBlocks, requestOptions.moduleName, requestOptions.controllerClass);
        ok == CanWrite(old(disk.entries), disk.unwritable, f)
        && disk.entries == AfterWrite(old(disk.entries), disk.unwritable, f, d)
        && disk.log == old(disk.log) + [Write(f, d)]
    {
      var controllerFilePath := requestOptions.controllerPath + requestOptions.controllerFile;
      ok := disk.PutContents(controllerFilePath,
        ControllerFileOf(flagCreateDocBlocks, requestOptions.moduleName, requestOptions.controllerClass));
    }

    /** The three directories (their results ignored), then Module.php. */
    method CreateModule(disk: Disk) returns (ok: bool)
      modifies disk
      ensures var o := requestOptions;
        var dirs := ModuleDirectories(o.modulePath, o.moduleName, o.moduleViewDir);
        var e0 := AfterMakeDir(AfterMakeDir(AfterMakeDir(old(disk.entries), disk.unwritable, dirs[0]),
                               disk.unwritable, dirs[1]), disk.unwritable, dirs[2]);
        var f := o.modulePath + "/Module.php";
        var d := ModuleFileOf(flagCreateDocBlocks, o.moduleName);
        ok == CanWrite(e0, disk.unwritable, f)
        && disk.entries == AfterWrite(e0, disk.unwritable, f, d)
        && disk.log == old(disk.log) + [MakeDir(dirs[0]), MakeDir(dirs[1]), MakeDir(dirs[2]), Write(f, d)]
    {
      var dirs := ModuleDirectories(requestOptions.modulePath, requestOptions.moduleName, requestOptions.moduleViewDir);
      var _ := disk.MakeDirectory(dirs[0]);
      var _ := disk.MakeDirectory(dirs[1]);
      var _ := disk.MakeDirectory(dirs[2]);
      ok := disk.PutContents(requestOptions.modulePath + "/Module.php",
        ModuleFileOf(flagCreateDocBlocks, requestOptions.moduleName));
    }

    /** The controller's view directory when it is missing, then the script. */
    method CreateViewScript(disk: Disk) returns (ok: bool)
      modifies disk
      ensures var o := requestOptions;
        var dir := o.controllerViewPath;
        var e0 := if dir in old(disk.entries) then old(disk.entries)
                  else AfterMakeDir(old(disk.entries), disk.unwritable, dir);
        var d := ViewScriptFileOf(flagCreateDocBlocks, o.actionName, o.controllerName, o.moduleName);
        ok == CanWrite(e0, disk.unwritable, o.actionViewPath)
        && disk.entries == AfterWrite(e0, disk.unwritable, o.actionViewPath, d)
        && disk.log == old(disk.log) + (if dir in old(disk.entries) then [] else [MakeDir(dir)])
                                     + [Write(o.actionViewPath, d)]
    {
      var o := requestOptions;
      if !disk.Exists(o.controllerViewPath) {
        var _ := disk.MakeDirectory(o.controllerViewPath);
      }
      ok := disk.PutContents(o.actionViewPath,
        ViewScriptFileOf(flagCreateDocBlocks, o.actionName, o.controllerName, o.moduleName));
    }

    /** The copy to the backup name comes first (its result ignored), then the
        write of the new configuration. */
    method UpdateConfiguration(disk: Disk, configData: Config, configFile: string) returns (ok: bool)
      modifies disk
      ensures var backup := BackupName(configFile);
        var e0 := AfterCopy(old(disk.entries), disk.unwritable, configFile, backup);
        var d := ConfigurationFile(flagCreateDocBlocks, configData, Some(backup));
        ok == CanWrite(e0, disk.unwritable, configFile)
        && disk.entries == AfterWrite(e0, disk.unwritable, configFile, d)
        && disk.log == old(disk.log) + [CopyFile(configFile, backup), Write(configFile, d)]
    {
      var oldFile := ReplaceAll(configFile, ".php", ".old");
      var _ := disk.Copy(configFile, oldFile);
      ok := disk.PutContents(configFile, ConfigurationFile(flagCreateDocBlocks, configData, Some(oldFile)));
    }

    /** Reflection, then the conflict check, and only then the write; an
        error changes nothing on disk. */
    method UpdateController(disk: Disk) returns (r: Result<bool, GeneratorError>)
      modifies disk
      ensures var o := requestOptions;
        var f := o.controllerPath + o.controllerFile;
        var reflected := ReflectedController(old(disk.entries), f, o.controllerKey + "Controller");
        && (r == Failure(ReflectionFailed) <==> reflected.None?)
        && (r == Failure(ActionExists) <==> reflected.Some? && HasMethod(reflected.value, o.actionMethod))
        && (r.Failure? ==> disk.entries == old(disk.entries) && disk.log == old(disk.log))
        && (r.Success? ==>
              var d := UpdatedControllerFile(flagCreateDocBlocks, o.moduleName, reflected.value, o.actionMethod);
              r.value == CanWrite(old(disk.entries), disk.unwritable, f)
              && disk.entries == AfterWrite(old(disk.entries), disk.unwritable, f, d)
              && disk.log == old(disk.log) + [Write(f, d)])
    {
      var o := requestOptions;
      var controllerFilePath := o.controllerPath + o.controllerFile;
      var reflected := ReflectedController(disk.entries, controllerFilePath, o.controllerKey + "Controller");
      if reflected.None? {
        return Failure(ReflectionFailed);
      }
      var code := reflected.value;
      if HasMethod(code, o.actionMethod) {
        return Failure(ActionExists);
      }
      var ok := disk.PutContents(controllerFilePath,
        UpdatedControllerFile(flagCreateDocBlocks, o.moduleName, code, o.actionMethod));
      r := Success(ok);
    }
  }
}
