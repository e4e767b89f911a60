/**
 * A code block with copy, download and run buttons. Its logic: the
 * language-to-extension table behind the download file name, which languages
 * get a run button, when line numbers show, and the `copied` flag that the
 * copy button sets and a timer clears.
 */
module CodeBlock {
  import opened Wrappers
  import opened JsString

  /** The `extensions` record of `getFileExtension`: exactly its 15 own keys. */
  const Extensions: map<string, string> := map[
    "javascript" := "js",
    "typescript" := "ts",
    "python" := "py",
    "java" := "java",
    "cpp" := "cpp",
    "c" := "c",
    "rust" := "rs",
    "go" := "go",
    "sql" := "sql",
    "html" := "html",
    "css" := "css",
    "json" := "json",
    "yaml" := "yml",
    "bash" := "sh",
    "shell" := "sh"
  ]

  /**
   * `getFileExtension(lang)`, the table lookup with a `txt` fallback: the table's
   * extension for a listed language and "txt" for every other one. No
   * listed language maps to "txt", so "txt" marks exactly the unlisted ones.
   */
  function FileExtension(lang: string): (ext: string)
    ensures lang in Extensions ==> ext == Extensions[lang]
    ensures ext == "txt" <==> lang !in Extensions
    ensures ext != [] && '.' !in ext
  {
    if lang in Extensions && Extensions[lang] != "" then Extensions[lang] else "txt"
  }

  /** The table entry by entry. */
  lemma ExtensionTable()
    ensures FileExtension("javascript") == "js" && FileExtension("typescript") == "ts"
    ensures FileExtension("python") == "py" && FileExtension("java") == "java"
    ensures FileExtension("cpp") == "cpp" && FileExtension("c") == "c"
    ensures FileExtension("rust") == "rs" && FileExtension("go") == "go"
    ensures FileExtension("sql") == "sql" && FileExtension("html") == "html"
    ensures FileExtension("css") == "css" && FileExtension("json") == "json"
    ensures FileExtension("yaml") == "yml"
    ensures FileExtension("bash") == "sh" && FileExtension("shell") == "sh"
  {
  }

  /** Two languages share "sh", so the extension does not determine the language. */
  lemma ExtensionNotInjective()
    ensures exists a, b :: a != b && FileExtension(a) == FileExtension(b) != "txt"
  {
    assert FileExtension("bash") == FileExtension("shell") == "sh";
  }

  /** The languages that get a run button. */
  const ExecutableLanguages: seq<string> := ["python", "javascript", "typescript", "bash", "shell"]

  /**
   * `isExecutable`: the language is one of the five runnable ones. Each of
   * them is in the extension table, so a runnable block downloads as a
   * `.py`, `.js`, `.ts` or `.sh` file, never as `.txt`.
   */
  function IsExecutable(language: string): (runnable: bool)
    ensures runnable ==> language in Extensions && FileExtension(language) in ["py", "js", "ts", "sh"]
  {
    assert forall x :: x in ExecutableLanguages ==> x in Extensions && Extensions[x] in ["py", "js", "ts", "sh"];
    language in ExecutableLanguages
  }

  /**
   * The name the download gets.
   * A non-empty file name wins; an absent or empty one gives "code." and
   * the extension, which splits at its one dot into "code" and the extension.
   */
  function DownloadName(filename: Option<string>, language: string): (name: string)
    ensures name != []
    ensures filename.Some? && filename.value != [] ==> name == filename.value
    ensures filename.None? || filename.value == [] ==>
              Split(name, '.') == ["code", FileExtension(language)]
  {
    if filename.Some? && filename.value != "" then filename.value
    else
      var ext := FileExtension(language);
      assert "code." + ext == Join(["code", ext], '.');
      SplitJoin(["code", ext], '.');
      "code." + ext
  }

  /**
   * Line numbers show when splitting the code at newlines gives more than
   * five pieces, that is, exactly when it holds at least five newlines.
   */
  function ShowLineNumbers(code: string): (show: bool)
    ensures show <==> multiset(code)['\n'] >= 5
  {
    SplitCount(code, '\n');
    |Split(code, '\n')| > 5
  }

  /** A notification shown by `toast`. */
  datatype Toast = Success(message: string) | Failure(message: string)

  /** What the download button hands to the browser. */
  datatype Download = Download(filename: string, content: string, mimeType: string)

  /** One rendered code block: its props and its `copied` state. */
  class Component {
    const code: string
    const language: string
    const filename: Option<string>
    /** Whether the copy button shows its check mark. */
    var copied: bool
    /** Reset timers set by successful copies and not yet fired. */
    var pendingResets: nat

    /** The check mark never stays on for good: a reset is always pending while it shows. */
    ghost predicate Valid()
      reads this
    {
      copied ==> pendingResets > 0
    }

    constructor(code: string, language: string, filename: Option<string>)
      ensures this.code == code && this.language == language && this.filename == filename
      ensures Valid() && !copied && pendingResets == 0
    {
      this.code := code;
      this.language := language;
      this.filename := filename;
      copied := false;
      pendingResets := 0;
    }

    /**
     * `copyToClipboard`: when the clipboard accepts the code, set `copied`,
     * schedule its reset and report success; when the write fails, change
     * nothing and report the failure.
     */
    method CopyToClipboard(clipboardAccepts: bool) returns (toast: Toast)
      requires Valid()
      modifies this
      ensures Valid()
      ensures clipboardAccepts ==> copied && pendingResets == old(pendingResets) + 1
      ensures !clipboardAccepts ==> copied == old(copied) && pendingResets == old(pendingResets)
      ensures toast.Success? <==> clipboardAccepts
      ensures toast == if clipboardAccepts then Success("Code copied to clipboard") else Failure("Failed to copy code")
    {
      if clipboardAccepts {
        copied := true;
        pendingResets := pendingResets + 1;
        toast := Success("Code copied to clipboard");
      } else {
        toast := Failure("Failed to copy code");
      }
    }

    /** The reset timer of an earlier successful copy fires. */
    method ResetCopied()
      requires Valid() && pendingResets > 0
      modifies this
      ensures Valid()
      ensures !copied && pendingResets == old(pendingResets) - 1
    {
      copied := false;
      pendingResets := pendingResets - 1;
    }

    /** `downloadCode`: a plain-text file holding exactly the code, under `DownloadName`. */
    function DownloadCode(): (d: Download)
      ensures d.content == code && d.mimeType == "text/plain"
      ensures d.filename == DownloadName(filename, language)
    {
      Download(DownloadName(filename, language), code, "text/plain")
    }
  }
}
