/** `exportContent` (src/generator/index-collection-helpers.ts): the wildcard re-export line of
    a generated file for an `index.ts`, naming the file's base name with `.ts` removed. Paths
    are POSIX paths. */
module IndexCollection {
  import opened Wrappers
  import opened Seqs

  /** The path without its trailing `/` characters. */
  function StripTrailingSlashes(p: string): (r: string)
    ensures r == [] || r[|r| - 1] != '/'
  {
    if |p| > 0 && p[|p| - 1] == '/' then StripTrailingSlashes(p[..|p| - 1]) else p
  }

  /** The text after the last `/`. */
  function AfterLastSlash(p: string): (r: string)
    ensures '/' !in r
  {
    if p == [] || p[|p| - 1] == '/' then [] else AfterLastSlash(p[..|p| - 1]) + [p[|p| - 1]]
  }

  /** `path.basename` on POSIX: the last component, trailing slashes ignored. */
  function Basename(p: string): string {
    AfterLastSlash(StripTrailingSlashes(p))
  }

  /** `exportContent`: `export * from "./<stem>";` where the stem is the base name with its first
      `.ts` removed. */
  function ExportContent(fileName: string): string {
    "export * from" + " " + "\"./" + ReplaceFirst(Basename(fileName), ".ts", "") + "\";"
  }

  /** A base name is a slash-free end of the path. */
  lemma BasenameIsLastComponent(dir: string, name: string)
    requires name != [] && '/' !in name
    ensures Basename(dir + "/" + name) == name
    ensures Basename(name) == name
    ensures '/' !in Basename(dir)
  {
    AfterLastSlashOfComponent(dir + "/", name);
    AfterLastSlashOfComponent([], name);
    assert [] + name == name;
  }

  /** After a slash, or at the start, a slash-free last component is the text after the last
      slash. */
  lemma {:induction false} AfterLastSlashOfComponent(prefix: string, name: string)
    requires prefix == [] || prefix[|prefix| - 1] == '/'
    requires '/' !in name
    ensures AfterLastSlash(prefix + name) == name
    decreases |name|
  {
    if name == [] {
      assert prefix + name == prefix;
    } else {
      var init, last := name[..|name| - 1], name[|name| - 1];
      var whole := prefix + name;
      assert whole[|whole| - 1] == last && last != '/';
      assert whole[..|whole| - 1] == prefix + init;
      AfterLastSlashOfComponent(prefix, init);
      assert init + [last] == name;
    }
  }

  /** Directories never reach the export line: a file is exported by its name alone. */
  lemma ExportDropsDirectories(dir: string, name: string)
    requires name != [] && '/' !in name
    ensures ExportContent(dir + "/" + name) == ExportContent(name)
  {
    BasenameIsLastComponent(dir, name);
  }

  /** `.ts` at a position inside a stem, on the stem followed by `.ts` and any text, would be
      `.ts` inside the stem or would overlap the appended dot. */
  lemma NoEarlyOccurrence(stem: string, rest: string, j: nat)
    requires j < |stem| && !OccursAt(stem, ".ts", j)
    ensures !OccursAt(stem + ".ts" + rest, ".ts", j)
  {
    var full := stem + ".ts" + rest;
    if j + 3 <= |stem| {
      assert full[j..j + 3] == stem[j..j + 3];
    } else if j == |stem| - 1 {
      assert full[j..j + 3][1] == '.';
    } else {
      assert full[j..j + 3][2] == '.';
    }
  }

  /** In a stem without `.ts` followed by `.ts` and any text, the first `.ts` is the one right
      after the stem. */
  lemma AppendedOccurrenceIsFirst(stem: string, rest: string)
    requires forall j :: !OccursAt(stem, ".ts", j)
    ensures IndexOf(stem + ".ts" + rest, ".ts") == Some(|stem|)
  {
    var full := stem + ".ts" + rest;
    assert full[|stem|..|stem| + 3] == ".ts";
    forall j | 0 <= j < |stem| ensures !OccursAt(full, ".ts", j) {
      NoEarlyOccurrence(stem, rest, j);
    }
    IndexOfFirst(full, ".ts", |stem|);
  }

  /** Removing the first `.ts` from a `.ts`-free stem, `.ts` and a rest leaves stem and rest. */
  lemma RemoveFirstTs(stem: string, rest: string)
    requires forall j :: !OccursAt(stem, ".ts", j)
    ensures ReplaceFirst(stem + ".ts" + rest, ".ts", "") == stem + rest
  {
    var full := stem + ".ts" + rest;
    AppendedOccurrenceIsFirst(stem, rest);
    assert full[..|stem|] == stem && full[|stem| + 3..] == rest;
    assert stem + "" + rest == stem + rest;
  }

  /** Only the first `.ts` is removed, wherever it is and whatever follows it: a base name that
      is a `.ts`-free text, `.ts` and any text is exported as the two texts joined, even when the
      rest holds a further `.ts` (`a.ts.ts` exports `./a.ts`) or the `.ts` is not an extension
      (`a.tsx` exports `./ax`). */
  lemma FirstOccurrenceOnly(stem: string, rest: string)
    requires '/' !in stem && '/' !in rest
    requires forall j :: !OccursAt(stem, ".ts", j)
    ensures ReplaceFirst(stem + ".ts" + rest, ".ts", "") == stem + rest
    ensures ExportContent(stem + ".ts" + rest) == "export * from \"./" + stem + rest + "\";"
  {
    var full := stem + ".ts" + rest;
    RemoveFirstTs(stem, rest);
    assert '/' !in full by {
      assert forall c :: c in full ==> c in stem || c in ".ts" || c in rest;
    }
    BasenameIsLastComponent([], full);
  }

  /** A base name without `.ts` is exported as it is, and with `.ts` appended it is exported by
      that same stem. */
  lemma ExportOfStem(stem: string)
    requires '/' !in stem && stem != []
    requires forall j :: !OccursAt(stem, ".ts", j)
    ensures ExportContent(stem) == "export * from \"./" + stem + "\";"
    ensures ExportContent(stem + ".ts") == ExportContent(stem)
  {
    BasenameIsLastComponent([], stem);
    FirstOccurrenceOnly(stem, "");
    assert stem + ".ts" + "" == stem + ".ts" && stem + "" == stem;
  }
}
