# ZFTool scaffolding, modelled in Dafny

ZFTool is the console tool of Zend Framework 2. This project models the
part of it that lays out new code:

- `ZFTool\Controller\CreateController`, which handles
  `zf create project|controller|action|module`;
- `ZFTool\Generator\ModuleGenerator`, which builds the generated classes,
  configuration files and view scripts.

Each modelled command first derives its names and paths from the console
request in `setupParams` (projectAction checks two PHP extensions before
that; those checks are left out). It then checks the disk, and finally
creates directories and writes files in a fixed order. It reports success only when the writes it
looks at succeed, and it aborts through `sendError` with error level 2.

The project has these modules:

- `Words` (words.dfy): the word filters behind the naming conventions,
  together with PHP's `rtrim`, `lcfirst`, `str_replace` and `implode`, with
  reference definitions and the lemmas that connect the two.
- `Names` (names.dfy): `setupParams` as a function from the request to
  every derived name and path, and the parameter map it fills.
- `CodeModel` (code_model.dfy): generated PHP files as values. These are
  doc blocks, classes with ordered `use` lists and methods, and
  configuration arrays. It covers `addUse`, `hasMethod`, `addMethod`, the
  reflection of a generated file, and registering a module.
- `FileSystem` (file_system.dfy): a `Disk` class. Its state is the map from
  path to entry and a log of every mkdir, copy and write in the order they
  were attempted. `file_put_contents`, recursive `mkdir` and `copy` are its
  methods. A write fails exactly when the target is in the disk's set of
  unwritable paths or is a directory; mkdir fails on an existing or
  unwritable path; copy fails without a source file or on an unwritable
  target.
- `Generator` (module_generator.dfy): the `ModuleGenerator` class, with
  its doc-block flag and its six writers, plus the file shapes they write.
- `Create` (create_controller.dfy): the `CreateController` class. It holds
  its parameter map, the four commands as guard sequences over the disk,
  the archive decision of `projectAction`, and the registration of a new
  module with its backup copy.

GitHub, the skeleton archive and the module templates
(`ZFTool\Model\Skeleton`) are a parameter of the commands, given as an
oracle. The system temp directory (`sys_get_temp_dir`) is a parameter too.

## Model

| member | source | states |
|---|---|---|
| Words.UnderscoreToCamelCase | src/ZFTool/Controller/CreateController.php:68-70 | the result holds no underscore |
| Words.DashToCamelCase | src/ZFTool/Controller/CreateController.php:71-73 | the result holds no dash |
| Words.DashToUnderscore | src/ZFTool/Controller/CreateController.php:75-77 | the result holds no dash |
| Words.UnderscoreToDash | src/ZFTool/Controller/CreateController.php:148-150 | the result holds no underscore |
| Words.UnderscoreThenDash | src/ZFTool/Controller/CreateController.php:67-74 | the underscore pass followed by the dash pass equals camel case over both separators (the reference `Camelize`) |
| Words.ReplaceThenCamel | src/ZFTool/Controller/CreateController.php:147-153 | turning underscores into dashes and then camel-casing on dashes equals the same reference camel case |
| Words.CamelCaseToDash | src/ZFTool/Controller/CreateController.php:85-87 | the CamelCaseToDash filter; its contract is stated by CamelCaseToDashOnlyAddsDashes |
| Words.CamelCaseToDashOnlyAddsDashes | src/ZFTool/Controller/CreateController.php:85-87 | CamelCaseToDash only inserts dashes: with all dashes removed, its result equals the input with all dashes removed |
| Words.StringToLower | src/ZFTool/Controller/CreateController.php:88 | same length, no upper-case letter, every upper-case letter becomes its lower-case partner in the alphabet table, and every other character is kept |
| Words.LcFirst | src/ZFTool/Controller/CreateController.php:161 | same length, an upper-case first letter becomes its lower-case partner in the alphabet table, the rest is unchanged, and a string not starting upper case is returned as is |
| Words.RTrim | src/ZFTool/Controller/CreateController.php:46 | the result is a prefix of the input, does not end in the trimmed character, and only that character was removed |
| Words.ReplaceAll | src/ZFTool/Generator/ModuleGenerator.php:284 | str_replace of every occurrence, left to right: a pattern replaced by one of the same length keeps the length (see also ReplaceAllChangesIffOccurs) |
| Words.ReplaceAllChangesIffOccurs | src/ZFTool/Generator/ModuleGenerator.php:284 | replacing a pattern by a different one of the same length changes the string exactly when the pattern occurs in it |
| Words.SplitJoin | src/ZFTool/Generator/ModuleGenerator.php:250-252 | splitting lines joined by a separator gives the lines back when none of them holds the separator |
| Words.Join | src/ZFTool/Generator/ModuleGenerator.php:250-252 | implode: the result starts with the first line and ends with the last, and is empty for no lines (see also SplitJoin) |
| Names.NormalizePath | src/ZFTool/Controller/CreateController.php:46-50 | the path is non-empty and has no trailing slash; it is "." or a prefix of the raw path with only slashes cut off; it is "." iff the trimmed path is "", "0" or "." |
| Names.ClassStyleName | src/ZFTool/Controller/CreateController.php:67-79 | a module or controller name holds no dash in either naming mode |
| Names.ActionStyleName | src/ZFTool/Controller/CreateController.php:147-158 | an action name holds no dash in either naming mode |
| Names.ViewName | src/ZFTool/Controller/CreateController.php:85-88 | a view directory or view file name holds no upper-case letter |
| Names.Resolve | src/ZFTool/Controller/CreateController.php:37-180 | the temp dir and normalized path are kept; each of the module, controller and action groups is derived iff its raw parameter is truthy in PHP's sense |
| Names.ParamsReadBack | src/ZFTool/Controller/CreateController.php:51-179 | reading any of the fourteen parameters back from the map gives the derived value, or "" when its group is absent |
| Names.NamesHaveNoDash | src/ZFTool/Controller/CreateController.php:64-158 | no derived module, controller or action name contains a dash |
| Names.NamingModes | src/ZFTool/Controller/CreateController.php:59-158 | every derived name is DashToUnderscore of the raw name when conventions are ignored, and the reference camel case of it otherwise |
| Names.LiteralThenCamel | src/ZFTool/Controller/CreateController.php:67-79 | camel-casing the literal-mode name gives the convention-mode name |
| Names.ViewFileName | src/ZFTool/Controller/CreateController.php:164-169 | the action view file is the view name of the action followed by ".phtml" |
| Names.Layout | src/ZFTool/Controller/CreateController.php:82-172 | each derived path is built from the project path and the derived names: module path, controller path, class, file and view path, action method, view file and view path |
| Names.ViewNamesLowerCase | src/ZFTool/Controller/CreateController.php:124-169 | module view dirs and action view files hold no upper-case letter; an action method starts lower case unless the action name came out empty, when it is "Action" |
| Names.ControllerWithoutModule | src/ZFTool/Controller/CreateController.php:114-115 | with a controller and no module, the controller path is "/src//Controller/" |
| CodeModel.Reflect | src/ZFTool/Controller/CreateController.php:495-504 | reflection finds a class only in a generated class file under its qualified name; NewControllerIsReflected and ExtendedControllerRefusesRepeat state what it finds |
| CodeModel.HasMethod | src/ZFTool/Controller/CreateController.php:512 | whether a class has a method of the given name; HasMethodAfterAdd and FixUsageKeepsMethods state how it changes |
| CodeModel.Insert | src/ZFTool/Controller/CreateController.php:507-508 | appending to an ordered set: it grows by one iff the item was absent, the old items keep their places, and its members are the old ones plus the item |
| CodeModel.InsertIsSetLike | src/ZFTool/Controller/CreateController.php:507-508 | inserting twice is inserting once, a new item appears exactly once, and a list without duplicates keeps none |
| CodeModel.AddMethod | src/ZFTool/Controller/CreateController.php:521-538 | one method more, placed last; the earlier methods and every other part of the class are unchanged |
| CodeModel.HasMethodAfterAdd | src/ZFTool/Controller/CreateController.php:512-538 | after addMethod a name is taken iff it was taken before or matches the added method |
| CodeModel.FixedUses | src/ZFTool/Controller/CreateController.php:507-508 | both Zend uses are present, the earlier uses keep their places, nothing else is added, and distinctness is kept |
| CodeModel.FixUsage | src/ZFTool/Controller/CreateController.php:507-509 | the uses are fixed, the parent is AbstractActionController, and every other part of the class is unchanged |
| CodeModel.Register | src/ZFTool/Controller/CreateController.php:653-654 | the module is listed afterwards; the earlier list is a prefix; the configuration is unchanged iff the module was listed; otherwise the module is appended; the other settings are kept |
| CodeModel.RegisterTwice | src/ZFTool/Controller/CreateController.php:653-654 | registering is idempotent and lists a new module exactly once |
| FileSystem.Ancestors | src/ZFTool/Controller/CreateController.php:632-634 | what a recursive mkdir creates includes the path itself, and every member is a prefix of it |
| FileSystem.WriteFrame | src/ZFTool/Controller/CreateController.php:410-413 | a write that succeeds stores exactly its data, a failed one changes nothing, and no other path is touched |
| FileSystem.MakeDirOnlyAdds | src/ZFTool/Controller/CreateController.php:632-634 | mkdir keeps every existing entry and adds only directories among the ancestors; on success the path and all its ancestors exist |
| FileSystem.Disk.PutContents | src/ZFTool/Controller/CreateController.php:410-413 | the write succeeds iff the path is writable and not a directory, and the new disk and log are exactly those of that write |
| FileSystem.Disk.MakeDirectory | src/ZFTool/Controller/CreateController.php:416-418 | mkdir succeeds iff the path is absent and writable, and creates the path and its ancestors |
| FileSystem.Disk.Copy | src/ZFTool/Controller/CreateController.php:655-658 | the copy succeeds iff the source is a file and the target is writable, and the target then holds the source's content |
| Generator.PackageTag | src/ZFTool/Generator/ModuleGenerator.php:510-518 | generatePackageTag: a tag named "package" carrying the given description; DocBlockPolicy and ClassDocBlockPolicy cover the doc blocks that hold it |
| Generator.ReturnTag | src/ZFTool/Generator/ModuleGenerator.php:527-535 | generateReturnTag: a tag named "return" carrying the given type; ActionMethodShape states the action method's return tag |
| Generator.SeeTag | src/ZFTool/Generator/ModuleGenerator.php:542-550 | generateSeeTag: a tag named "see" carrying the project's home page |
| Generator.ActionMethod | src/ZFTool/Generator/ModuleGenerator.php:396-419 | generateActionMethod; its contract is stated by ActionMethodShape |
| Generator.GetConfigMethod | src/ZFTool/Generator/ModuleGenerator.php:470-501 | generateGetConfigMethod; GeneratedClassShapes places it first in Module, and ClassDocBlockPolicy gives it a doc block iff doc blocks are on |
| Generator.GetAutoloaderConfigMethod | src/ZFTool/Generator/ModuleGenerator.php:426-463 | generateGetAutoloaderConfigMethod; GeneratedClassShapes places it second in Module, and ClassDocBlockPolicy gives it a doc block iff doc blocks are on |
| Generator.ActionMethodShape | src/ZFTool/Generator/ModuleGenerator.php:396-419 | the action method has the given name and the body `return new ViewModel();`, and has a doc block iff doc blocks are on, with the "Method <name>" summary and the return tag |
| Generator.ViewScriptHasFiveLines | src/ZFTool/Generator/ModuleGenerator.php:239-252 | splitting a view script body at line feeds gives exactly the source's line list, the five lines "?>", the jumbotron div, the heading with the action name, the paragraph and "</div>" |
| Generator.DocBlockPolicy | src/ZFTool/Generator/ModuleGenerator.php:49-389 | every file the generator writes (module config, controller, Module.php, view script, updated controller) carries a doc block iff doc blocks are switched on |
| Generator.ClassDocBlockPolicy | src/ZFTool/Generator/ModuleGenerator.php:93-501 | the generated controller and Module classes, the two Module methods and the action method appended by updateController carry a doc block iff doc blocks are switched on |
| Generator.GeneratedClassShapes | src/ZFTool/Generator/ModuleGenerator.php:93-218 | Module lives in namespace M with getConfig and then getAutoloaderConfig; the controller is M\Controller\<class>, extends AbstractActionController, has the two uses and only indexAction |
| Generator.UpdateAppendsOne | src/ZFTool/Generator/ModuleGenerator.php:350-363 | updateController keeps every reflected method in place and appends exactly the action method; afterwards a name conflicts iff it did before or is the new action's |
| Generator.CreateThenUpdate | src/ZFTool/Generator/ModuleGenerator.php:93-389 | a fresh controller accepts any action other than indexAction, then holds indexAction and the new action in that order, and refuses the new action a second time |
| Generator.BackupName | src/ZFTool/Generator/ModuleGenerator.php:284 | the backup name has the length of the configuration file name; BackupNameHasNoPhp states that every ".php" is replaced |
| Generator.BackupNameHasNoPhp | src/ZFTool/Generator/ModuleGenerator.php:284 | no ".php" is left in the backup name, so every occurrence was replaced |
| Generator.BackupIsElsewhereIffPhp | src/ZFTool/Generator/ModuleGenerator.php:284-287 | the backup is a different file iff the name contains ".php"; otherwise the copy targets the file itself |
| Generator.UpdateKeepsPrevious | src/ZFTool/Generator/ModuleGenerator.php:284-319 | when the copy and the write both succeed, the backup holds the previous content and the file holds the new one |
| Generator.ModuleGenerator.constructor | src/ZFTool/Generator/ModuleGenerator.php:34-40 | doc blocks are on exactly when the no-doc-blocks option is off |
| Generator.ModuleGenerator.CreateConfiguration | src/ZFTool/Generator/ModuleGenerator.php:49-86 | writes module.config.php with the configuration data and returns false exactly when that write fails |
| Generator.ModuleGenerator.CreateController | src/ZFTool/Generator/ModuleGenerator.php:93-151 | writes the generated controller class and returns false exactly when that write fails |
| Generator.ModuleGenerator.CreateModule | src/ZFTool/Generator/ModuleGenerator.php:158-218 | makes the three module directories in order, whatever their results, then writes Module.php, and returns false exactly when that write fails |
| Generator.ModuleGenerator.CreateViewScript | src/ZFTool/Generator/ModuleGenerator.php:225-273 | makes the controller view directory only when it is missing, then writes the script, and returns false exactly when that write fails |
| Generator.ModuleGenerator.UpdateConfiguration | src/ZFTool/Generator/ModuleGenerator.php:281-320 | copies the file to its backup name first, then writes the configuration that names the backup, and returns false exactly when that write fails |
| Generator.ModuleGenerator.UpdateController | src/ZFTool/Generator/ModuleGenerator.php:328-389 | fails iff reflection fails or the action exists, changing nothing on disk; otherwise writes the updated class and returns false exactly when that write fails |
| Create.SendError | src/ZFTool/Controller/CreateController.php:694-702 | an aborted result with the given reason and error level 2 |
| Create.ChooseArchive | src/ZFTool/Controller/CreateController.php:211-243 | the archive decision of projectAction; its contract is stated by ArchiveDecisionOrder |
| Create.IsApplication | src/ZFTool/Controller/CreateController.php:324-326 | a path holds an application iff both its module directory and its config/application.config.php exist; ControllerAction, MethodAction and ModuleAction abort with NotAnApplication, touching nothing, exactly when it fails |
| Create.ViewNote | src/ZFTool/Controller/CreateController.php:421-423 | the text of a controller's first view script; ControllerAction writes it to index.phtml and MethodAction to the action's view file |
| Create.ReadConfig | src/ZFTool/Controller/CreateController.php:652 | `require` of application.config.php: the stored configuration, or none for a missing or non-configuration file; Registration makes that case fatal |
| Create.ArchiveDecisionOrder | src/ZFTool/Controller/CreateController.php:211-243 | the target check comes first and alone stops on an existing path; the commit lookup always comes second and the cache is asked exactly when there is no commit; a commit picks its own archive; a download only for an archive not on disk, and always for a found archive that is not on disk; only a failed download ends in NoSkeletonDownload, and a failed download always does; and with the target free, an archive name found, and that archive on disk or downloaded, it goes on to unpack exactly that archive |
| Create.Registration | src/ZFTool/Controller/CreateController.php:649-672 | an unreadable configuration is fatal and changes nothing; an already listed module changes nothing; otherwise the file is copied to application.config.old, then rewritten with the module registered |
| Create.NewControllerIsReflected | src/ZFTool/Controller/CreateController.php:495-518 | the controller controllerAction writes is found by methodAction's reflection, and already has indexAction |
| Create.ExtendedControllerRefusesRepeat | src/ZFTool/Controller/CreateController.php:495-565 | the controller methodAction writes is reflected under the same name, keeps every earlier method, and refuses the same action a second time |
| Create.FixUsageKeepsMethods | src/ZFTool/Controller/CreateController.php:507-518 | fixing the uses does not change which method names conflict |
| Create.RegistrationKeepsBackup | src/ZFTool/Controller/CreateController.php:649-671 | after registration application.config.old holds the previous content and application.config.php reads back as the registered configuration |
| Create.ScaffoldCreatesModulePath | src/ZFTool/Controller/CreateController.php:618-672 | once the config directory is made, the module path exists after the scaffold and still exists after the registration, so the same command is refused afterwards |
| Create.RegistrationOnlyAdds | src/ZFTool/Controller/CreateController.php:649-672 | registering a module removes no path from the disk |
| Create.CreateController.SetupParams | src/ZFTool/Controller/CreateController.php:37-180 | the parameter map is exactly that of the names derived from the request |
| Create.CreateController.SetModuleParams | src/ZFTool/Controller/CreateController.php:64-94 | sets the module name, path and view dir derived from the raw name |
| Create.CreateController.SetControllerParams | src/ZFTool/Controller/CreateController.php:96-141 | sets the five controller parameters derived from the raw name and the module values |
| Create.CreateController.SetActionParams | src/ZFTool/Controller/CreateController.php:143-179 | sets the four action parameters derived from the raw name and the controller view path |
| Create.CreateController.ProjectAction | src/ZFTool/Controller/CreateController.php:187-243 | the probes and the outcome are exactly the archive decision for the normalized path |
| Create.CreateController.ControllerAction | src/ZFTool/Controller/CreateController.php:308-443 | aborts without touching the disk when no application is found or the controller exists; otherwise writes the controller, makes the view dir if missing, writes index.phtml, and reports success iff both writes succeed |
| Create.CreateController.MethodAction | src/ZFTool/Controller/CreateController.php:450-590 | checks for the application, the controller file, a reflectable class and a free action name in that order, touching nothing until all pass; when all pass it always finishes, and writes the extended controller and the view script, and reports success iff both writes succeed |
| Create.CreateController.ModuleAction | src/ZFTool/Controller/CreateController.php:597-686 | aborts without touching the disk when no application is found or the module path exists; otherwise runs the scaffold and then the registration |
| Create.CreateController.CreateModuleFiles | src/ZFTool/Controller/CreateController.php:631-646 | three mkdirs and the two template writes, in that order, whatever their results |
| Create.CreateController.RegisterModule | src/ZFTool/Controller/CreateController.php:648-672 | the outcome, disk and log are those of the registration step |

## Left out

- Words.SeparatorToCamelCase: drops every separator and upper-cases the next character, as do UnderscoreToCamelCase, DashToCamelCase and Camelize. Zend's filter keeps a separator that is not followed by a letter, and upper-cases the first character only when it is a lower-case letter. Zend\Filter is not part of this model.
- Names.NamesHaveNoDash: holds for the simplified filters only; with Zend's own filter a dash before a digit survives the convention-mode rules (for example "a-1").
- Names.ActionStyleName: under the simplified filters the action rule gives the same names as the module and controller rule (see Names.NamingModes); with Zend's filters they differ for separators before non-letters.
- Words.StringToLower: ASCII letters only, like CamelCaseToDash; no multibyte case mapping.
- CodeModel.SameMethodName: taken to be case-insensitive, on the assumption that Zend\Code's ClassGenerator keys methods by their lower-cased name. Zend\Code is not part of this model.
- CodeModel.Reflect: reflection returns the class model stored in a generated file, or fails; parsing hand-written PHP is not modelled.
- Rendering the generators to PHP text (FileGenerator::generate, ValueGenerator, Skeleton::exportConfig) is left out; files are structural values.
- Create.CreateController.ProjectAction: stops at the chosen archive. The checks for the zip and openssl extensions (lines 189-201), extraction, the skeleton download's write to disk, composer and the final messages are left out.
- Console output and message texts are left out. `Done(reportedSuccess)` records which final message a command prints.
- FileSystem.Disk.MakeDirectory: fails only on an existing or unwritable path; failures caused by an ancestor that is a file, and permission modes, are not modelled.
- FileSystem.Disk.PutContents: a write fails only on a path in the disk's unwritable set or on a directory. The case where file_put_contents returns 0 for empty content is not modelled, and every content the core writes is non-empty.
- FileSystem.Disk.PutContents: a missing parent directory does not make a write fail. controllerAction writes into the controller directory without creating it (CreateController.php:409-413), and the fixed unwritable set cannot follow directories that are created later.
- CodeModel.Config: a configuration array is a module list plus string-valued settings. ZFTool passes any nested array through, which the model abstracts to an opaque string per key.
- Generator.RequestOptions: ZFTool\Options\RequestOptions is not part of this model; its getters become fields of a datatype.
- Generator.ModuleGenerator.UpdateController: GeneratorException for an existing action and a failing reflection are returned as errors rather than thrown.
- Create.Registration: application.config.php is modelled as a configuration value with a module list, and the model treats any other content as a fatal error that changes nothing. That is PHP 7 and later for a file that does not parse, and PHP 8 for a readable file that returns no array, where in_array at line 653 throws a TypeError. Under PHP 5 and 7 such a file only raises warnings, and the source goes on to copy and overwrite application.config.php; that path is not modelled.
- Create.Registration: a missing `modules` key reads as an empty list, so the module is appended to a fresh list. That is the PHP 5 and 7 behaviour; under PHP 8 in_array throws a TypeError there.
- CodeModel.Register: module names are compared exactly. in_array at CreateController.php:653 compares loosely, so there numeric strings such as "1" and "01" count as the same module.
- Create.CreateController.ModuleAction: without a module name the command goes on with empty names, as the source does; no extra guard is added.
- The other controllers of ZFTool (diagnostics, info, modules, install, config) and the Skeleton class's network code are not part of this model.
