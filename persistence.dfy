/**
 * src/utilities/backend_code_persistence.rs: where the generated backend
 * project lives, and reading and writing its files. The filesystem is a map
 * from path strings to file contents; the crate's manifest directory (fixed
 * when the crate is compiled) is the `manifestDir` parameter.
 */
module Persistence {
  import opened Outcomes

  const BackendCodeProjectPath := "backend_code"
  const CodeTemplateRelativeFilePath := "backend_code/src/template.rs"
  const ExecutableMainRelativePath := "backend_code/src/main.rs"
  const ApiSchemaRelativePath := "backend_code/schemas/api_schema.json"

  /** `format!("{}/{}", dir, rel)`. */
  function Join(dir: string, rel: string): string {
    dir + "/" + rel
  }

  function ProjectPath(dir: string): string { Join(dir, BackendCodeProjectPath) }
  function CodeTemplatePath(dir: string): string { Join(dir, CodeTemplateRelativeFilePath) }
  function ExecutableMainPath(dir: string): string { Join(dir, ExecutableMainRelativePath) }
  function ApiSchemaPath(dir: string): string { Join(dir, ApiSchemaRelativePath) }

  /** `fs::read_to_string(..).expect(..)`: the file's contents, or the given panic when there is no such file. */
  function ReadFile(files: map<string, string>, path: string, missing: Panic): (r: Outcome<string>)
    ensures r.Done? <==> path in files
    ensures r.Done? ==> r.value == files[path]
    ensures r.Fatal? ==> r.reason == missing
  {
    if path in files then Done(files[path]) else Fatal(missing)
  }

  function ReadCodeTemplateContents(files: map<string, string>, dir: string): Outcome<string> {
    ReadFile(files, CodeTemplatePath(dir), ReadCodeTemplate)
  }

  function ReadExecutableMainContents(files: map<string, string>, dir: string): Outcome<string> {
    ReadFile(files, ExecutableMainPath(dir), ReadExecutableMain)
  }

  /** Every file path lies inside the backend project directory. */
  lemma PathsInsideProject(dir: string)
    ensures ProjectPath(dir) + "/" <= CodeTemplatePath(dir)
    ensures ProjectPath(dir) + "/" <= ExecutableMainPath(dir)
    ensures ProjectPath(dir) + "/" <= ApiSchemaPath(dir)
  {
    var p := BackendCodeProjectPath + "/";
    assert p == CodeTemplateRelativeFilePath[..|p|];
    assert p == ExecutableMainRelativePath[..|p|];
    assert p == ApiSchemaRelativePath[..|p|];
    JoinExtends(dir, BackendCodeProjectPath, CodeTemplateRelativeFilePath);
    JoinExtends(dir, BackendCodeProjectPath, ExecutableMainRelativePath);
    JoinExtends(dir, BackendCodeProjectPath, ApiSchemaRelativePath);
  }

  /** A path inside `sub` joins to a path inside the joined `sub`. */
  lemma JoinExtends(dir: string, sub: string, rel: string)
    requires sub + "/" <= rel
    ensures Join(dir, sub) + "/" <= Join(dir, rel)
  {
    var n := |dir| + 1 + |sub| + 1;
    assert Join(dir, rel)[..n] == dir + "/" + rel[..|sub| + 1];
  }

  /** The three files are different files, whatever the manifest directory. */
  lemma PathsDistinct(dir: string)
    ensures CodeTemplatePath(dir) != ExecutableMainPath(dir)
    ensures CodeTemplatePath(dir) != ApiSchemaPath(dir)
    ensures ExecutableMainPath(dir) != ApiSchemaPath(dir)
  {
  }

  /** The filesystem the persistence helpers read and write. */
  class FileSystem {
    const manifestDir: string
    var files: map<string, string>

    constructor (dir: string, initial: map<string, string>)
      ensures manifestDir == dir && files == initial
    {
      manifestDir := dir;
      files := initial;
    }

    /** `save_backend_code`: overwrite the generated main.rs. */
    method SaveBackendCode(contents: string)
      modifies this
      ensures files == old(files)[ExecutableMainPath(manifestDir) := contents]
    {
      files := files[ExecutableMainPath(manifestDir) := contents];
    }

    /** `save_api_endpoints`: overwrite the JSON endpoint schema. */
    method SaveApiEndpoints(contents: string)
      modifies this
      ensures files == old(files)[ApiSchemaPath(manifestDir) := contents]
    {
      files := files[ApiSchemaPath(manifestDir) := contents];
    }
  }

  /** Reading main.rs after saving backend code returns that code. */
  lemma SaveThenReadMain(files: map<string, string>, dir: string, code: string)
    ensures ReadExecutableMainContents(files[ExecutableMainPath(dir) := code], dir) == Done(code)
  {
  }

  /** Saving the endpoint schema leaves main.rs and the template as they were. */
  lemma SaveSchemaKeepsCode(files: map<string, string>, dir: string, schema: string)
    ensures ReadExecutableMainContents(files[ApiSchemaPath(dir) := schema], dir) == ReadExecutableMainContents(files, dir)
    ensures ReadCodeTemplateContents(files[ApiSchemaPath(dir) := schema], dir) == ReadCodeTemplateContents(files, dir)
  {
    PathsDistinct(dir);
  }

  /** Saving backend code leaves the template and the schema as they were. */
  lemma SaveCodeKeepsOthers(files: map<string, string>, dir: string, code: string)
    ensures ReadCodeTemplateContents(files[ExecutableMainPath(dir) := code], dir) == ReadCodeTemplateContents(files, dir)
    ensures ApiSchemaPath(dir) in files[ExecutableMainPath(dir) := code] <==> ApiSchemaPath(dir) in files
  {
    PathsDistinct(dir);
  }
}
