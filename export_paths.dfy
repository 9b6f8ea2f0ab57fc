/**
 * Where both exporters put their files: `output_dir`, by default
 * "./output", then the configured export subdirectory, then one file name
 * per export.  An f-string renders an unset subdirectory (`None`) as
 * "None".
 */
module ExportPaths {
  import opened Wrappers

  /** The default `output_dir` of the exporters. */
  const DefaultOutputDir: string := "./output"

  /** `f"{value}"` for an optional string. */
  function Show(value: Option<string>): string {
    match value
    case Some(s) => s
    case None => "None"
  }

  /** `f"{output_dir}/{output_subdir}/"`. */
  function Folder(outputDir: string, outputSubdir: Option<string>): string {
    outputDir + "/" + Show(outputSubdir) + "/"
  }

  /** `f"{output_dir}/{output_subdir}/{name}"` for each name, in order. */
  function Paths(outputDir: string, outputSubdir: Option<string>, names: seq<string>): (ps: seq<string>)
    ensures |ps| == |names|
  {
    seq(|names|, i requires 0 <= i < |names| => Folder(outputDir, outputSubdir) + names[i])
  }

  lemma PathsAt(outputDir: string, outputSubdir: Option<string>, names: seq<string>)
    ensures forall i :: 0 <= i < |names| ==> Paths(outputDir, outputSubdir, names)[i] == Folder(outputDir, outputSubdir) + names[i]
  {
  }

  /**
   * Every path is the export folder followed by its own file name, so
   * different names give different paths and no export overwrites another.
   */
  lemma PathsSpec(outputDir: string, outputSubdir: Option<string>, names: seq<string>)
    ensures var ps, folder := Paths(outputDir, outputSubdir, names), Folder(outputDir, outputSubdir);
      && (forall i :: 0 <= i < |names| ==> folder <= ps[i] && ps[i][|folder|..] == names[i])
      && (forall i, j :: 0 <= i < |names| && 0 <= j < |names| && names[i] != names[j] ==> ps[i] != ps[j])
  {
    var ps, folder := Paths(outputDir, outputSubdir, names), Folder(outputDir, outputSubdir);
    forall i | 0 <= i < |names| ensures folder <= ps[i] && ps[i][|folder|..] == names[i] {
      assert ps[i] == folder + names[i];
    }
    forall i, j | 0 <= i < |names| && 0 <= j < |names| && names[i] != names[j] ensures ps[i] != ps[j] {
      assert ps[i][|folder|..] == names[i] && ps[j][|folder|..] == names[j];
    }
  }
}
