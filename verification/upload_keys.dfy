/**
 The output file names and object-storage keys built in `main`
 (pricing.py:127-128, 133, 136): `output/aws_costs_<label>.json`, the same
 with `.csv`, and for each uploaded file the key
 `<prefix without trailing slashes>/<basename of the local file>`.
 */
module UploadKeys {
  import opened Paths

  const OutputDir := "output"
  const JsonExt := ".json"
  const CsvExt := ".csv"

  function FileName(labelText: string, ext: string): string {
    "aws_costs_" + labelText + ext
  }

  /** `os.path.join("output", f"aws_costs_{label}{ext}")`. */
  function LocalPath(labelText: string, ext: string): string {
    Join(OutputDir, FileName(labelText, ext))
  }

  /** `f"{PREFIX.rstrip('/')}/{os.path.basename(local)}"`. */
  function ObjectKey(prefix: string, local: string): string {
    RStripSlashes(prefix) + "/" + Basename(local)
  }

  /** The keys uploaded, in upload order: the JSON file always, the CSV file
      only when the tabular library is available. */
  function UploadedKeys(prefix: string, labelText: string, csvAvailable: bool): seq<string> {
    [ObjectKey(prefix, LocalPath(labelText, JsonExt))]
      + (if csvAvailable then [ObjectKey(prefix, LocalPath(labelText, CsvExt))] else [])
  }

  /** The local files sit directly in the `output` directory. */
  lemma LocalPathIs(labelText: string, ext: string)
    ensures LocalPath(labelText, ext) == OutputDir + "/" + FileName(labelText, ext)
  {
  }

  /** The two local files, spelled out. */
  lemma LocalPathsSpelled(labelText: string)
    ensures LocalPath(labelText, JsonExt) == "output/aws_costs_" + labelText + ".json"
    ensures LocalPath(labelText, CsvExt) == "output/aws_costs_" + labelText + ".csv"
  {
    LocalPathIs(labelText, JsonExt);
    LocalPathIs(labelText, CsvExt);
  }

  /** A label without `/` survives the join-then-basename round trip, so the
      key is the stripped prefix, one `/`, and the file name. */
  lemma KeyOfLabel(prefix: string, labelText: string, ext: string)
    requires NoSlash(labelText) && NoSlash(ext)
    ensures ObjectKey(prefix, LocalPath(labelText, ext)) == RStripSlashes(prefix) + "/" + FileName(labelText, ext)
  {
    var name := FileName(labelText, ext);
    assert name == "aws_costs_" + labelText + ext;
    assert forall k :: 0 <= k < |name| ==> name[k] != '/' by {
      forall k | 0 <= k < |name|
        ensures name[k] != '/'
      {
        if k < 10 {
        } else if k < 10 + |labelText| {
          assert name[k] == labelText[k - 10];
        } else {
          assert name[k] == ext[k - 10 - |labelText|];
        }
      }
    }
    BasenameOfJoin(OutputDir, name);
  }

  /** Prefixes that differ only in trailing slashes give identical keys. */
  lemma KeysIgnoreTrailingSlashes(prefix: string, n: nat, local: string)
    ensures ObjectKey(prefix + Slashes(n), local) == ObjectKey(prefix, local)
  {
    RStripIgnoresTrailingSlashes(prefix, n);
  }

  lemma ExtensionsHaveNoSlash()
    ensures NoSlash(JsonExt) && NoSlash(CsvExt)
  {
  }

  lemma SampleLabelHasNoSlash()
    ensures NoSlash("2024-01-01")
  {
  }

  lemma SampleKeyText()
    ensures "aws-costs" + "/" + FileName("2024-01-01", JsonExt) == "aws-costs/aws_costs_2024-01-01.json"
  {
  }

  lemma DefaultPrefixStrips()
    ensures RStripSlashes("aws-costs/") == "aws-costs"
  {
    RStripSlashesUnique("aws-costs/", "aws-costs");
  }

  /** The default prefix `aws-costs/` puts a JSON report for `2024-01-01` under
      `aws-costs/aws_costs_2024-01-01.json`. */
  lemma DefaultPrefixExample()
    ensures ObjectKey("aws-costs/", LocalPath("2024-01-01", JsonExt)) == "aws-costs/aws_costs_2024-01-01.json"
  {
    ExtensionsHaveNoSlash();
    SampleLabelHasNoSlash();
    KeyOfLabel("aws-costs/", "2024-01-01", JsonExt);
    DefaultPrefixStrips();
    SampleKeyText();
  }

  /** One key per written file: two with the tabular library, one without,
      and the JSON key first. */
  lemma UploadedKeysShape(prefix: string, labelText: string, csvAvailable: bool)
    requires NoSlash(labelText)
    ensures |UploadedKeys(prefix, labelText, csvAvailable)| == (if csvAvailable then 2 else 1)
    ensures UploadedKeys(prefix, labelText, csvAvailable)[0] == RStripSlashes(prefix) + "/" + FileName(labelText, JsonExt)
    ensures csvAvailable ==> UploadedKeys(prefix, labelText, csvAvailable)[1] == RStripSlashes(prefix) + "/" + FileName(labelText, CsvExt)
  {
    var keys := UploadedKeys(prefix, labelText, csvAvailable);
    var jsonKey := ObjectKey(prefix, LocalPath(labelText, JsonExt));
    var csvKey := ObjectKey(prefix, LocalPath(labelText, CsvExt));
    assert keys == [jsonKey] + (if csvAvailable then [csvKey] else []);
    ExtensionsHaveNoSlash();
    KeyOfLabel(prefix, labelText, JsonExt);
    KeyOfLabel(prefix, labelText, CsvExt);
  }
}
