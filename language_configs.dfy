/** The language registry: a constant table from language id to the image,
    the source file name and the command templates that run it. */
module LanguageConfigs {
  import opened Text
  import opened Placeholders

  /** One registry entry. `runCommand` is optional in the entry's type, and
      `useEntrypoint` is absent, true or false. */
  datatype LanguageConfig = LanguageConfig(
    image: string,
    fileName: string,
    runCommand: Option<string>,
    compileCommand: Option<string>,
    useEntrypoint: Option<bool>)

  /** The one placeholder the templates use. */
  const CodeFilePath := "{{codeFilePath}}"

  const Registry: map<string, LanguageConfig> := map[
    "python" := LanguageConfig("python-runner", "script.py",
      Some("python3 /workspace/" + CodeFilePath), None, None),
    "javascript" := LanguageConfig("javascript-runner", "script.js",
      Some("node /workspace/" + CodeFilePath), None, None),
    "c" := LanguageConfig("c-runner", "program.c",
      Some("/workspace/program"), Some("gcc /workspace/" + CodeFilePath + " -o /workspace/program"), None),
    "cpp" := LanguageConfig("cpp-runner", "program.cpp",
      Some("/workspace/program"), Some("g++ /workspace/" + CodeFilePath + " -o /workspace/program"), None),
    "java" := LanguageConfig("java-runner", "Main.java",
      Some("java -cp /workspace Main"), Some("javac /workspace/" + CodeFilePath), None),
    "go" := LanguageConfig("go-runner", "script.go",
      Some("go run /workspace/" + CodeFilePath), None, None),
    "php" := LanguageConfig("php-runner", "script.php",
      Some("php /workspace/" + CodeFilePath), None, None),
    "rust" := LanguageConfig("rust-runner", "main.rs",
      Some("/workspace/binary"), Some("rustc /workspace/" + CodeFilePath + " -o /workspace/binary"), None),
    "r" := LanguageConfig("r-runner", "script.R",
      Some("Rscript /workspace/" + CodeFilePath), None, None),
    "elixir" := LanguageConfig("elixir-runner", "script.exs",
      Some("elixir /workspace/" + CodeFilePath), None, None),
    "solidity" := LanguageConfig("solidity-runner", "script.sol",
      Some("cat /workspace/" + CodeFilePath),
      Some("--optimize --bin /workspace/" + CodeFilePath + " -o /workspace"), Some(false)),
    "csharp" := LanguageConfig("csharp-runner", "Program.cs",
      Some("dotnet run --project /workspace"), None, Some(true))
  ]

  /** `languageConfigs[language]`: exact, case-sensitive lookup. */
  function Lookup(language: string): (r: Option<LanguageConfig>)
    ensures r.Some? <==> language in Registry
    ensures r.Some? ==> r.value == Registry[language]
  {
    if language in Registry then Some(Registry[language]) else None
  }

  /** A template expanded with the one replacement the executor supplies,
      `{codeFilePath: fileName}`. */
  function Expand(template: string, fileName: string): string
  {
    ReplacePlaceholders(template, map["codeFilePath" := fileName])
  }

  lemma RegistryKeys()
    ensures Registry.Keys == {"python", "javascript", "c", "cpp", "java", "go", "php",
                              "rust", "r", "elixir", "solidity", "csharp"}
  {
  }

  lemma ImageIsKeyRunner(language: string)
    requires language in Registry
    ensures Registry[language].image == language + "-runner"
  {
    RegistryKeys();
    if language in {"python", "javascript", "go", "php", "r", "elixir"} {
      InterpretedImages(language);
    } else {
      CompiledImages(language);
    }
  }

  /** The images of the languages run without a compile step. */
  lemma InterpretedImages(language: string)
    requires language in {"python", "javascript", "go", "php", "r", "elixir"}
    ensures language in Registry && Registry[language].image == language + "-runner"
  {
    if language == "python" {
      assert "python" + "-runner" == "python-runner";
    } else if language == "javascript" {
      assert "javascript" + "-runner" == "javascript-runner";
    } else if language == "go" {
      assert "go" + "-runner" == "go-runner";
    } else if language == "php" {
      assert "php" + "-runner" == "php-runner";
    } else if language == "r" {
      assert "r" + "-runner" == "r-runner";
    } else if language == "elixir" {
      assert "elixir" + "-runner" == "elixir-runner";
    }
  }

  /** The images of the compiled languages and of C#. */
  lemma CompiledImages(language: string)
    requires language in {"c", "cpp", "java", "rust", "solidity", "csharp"}
    ensures language in Registry && Registry[language].image == language + "-runner"
  {
    if language == "c" {
      assert "c" + "-runner" == "c-runner";
    } else if language == "cpp" {
      assert "cpp" + "-runner" == "cpp-runner";
    } else if language == "java" {
      assert "java" + "-runner" == "java-runner";
    } else if language == "rust" {
      assert "rust" + "-runner" == "rust-runner";
    } else if language == "solidity" {
      assert "solidity" + "-runner" == "solidity-runner";
    } else if language == "csharp" {
      assert "csharp" + "-runner" == "csharp-runner";
    }
  }

  lemma RunCommandAlwaysPresent(language: string)
    requires language in Registry
    ensures Registry[language].runCommand.Some?
  {
  }

  lemma CompiledLanguages(language: string)
    requires language in Registry
    ensures Registry[language].compileCommand.Some?
            <==> language in {"c", "cpp", "java", "rust", "solidity"}
  {
  }

  lemma EntrypointFlags(language: string)
    requires language in Registry
    ensures Registry[language].useEntrypoint == Some(false) <==> language == "solidity"
    ensures Registry[language].useEntrypoint == Some(true) <==> language == "csharp"
  {
  }

  lemma FileNamesDistinct(a: string, b: string)
    requires a in Registry && b in Registry && a != b
    ensures Registry[a].fileName != Registry[b].fileName
  {
  }

  /** Expanding `pre{{codeFilePath}}post`, with brace-free `pre`, `post` and
      file name, puts the file name where the placeholder was and leaves no
      placeholder. */
  lemma ExpandCodeFilePath(pre: string, post: string, fileName: string)
    requires '{' !in pre && '{' !in post && '{' !in fileName
    ensures Expand(pre + CodeFilePath + post, fileName) == pre + fileName + post
    ensures !HasPlaceholder(Expand(pre + CodeFilePath + post, fileName))
  {
    var r := map["codeFilePath" := fileName];
    assert IsWord("codeFilePath");
    assert CodeFilePath == "{{" + "codeFilePath" + "}}";
    assert pre + CodeFilePath + post == pre + (CodeFilePath + post);
    ExpandToken(pre, "codeFilePath", post, r);
    NoPlaceholderBraceFree(post);
    NoPlaceholderUnchanged(post, r);
    assert pre + (fileName + post) == pre + fileName + post;
    assert '{' !in pre + fileName + post;
    NoPlaceholderBraceFree(pre + fileName + post);
  }

  /** A brace-free template expands to itself. */
  lemma ExpandPlain(t: string, fileName: string)
    requires '{' !in t
    ensures Expand(t, fileName) == t && !HasPlaceholder(Expand(t, fileName))
  {
    NoPlaceholderBraceFree(t);
    NoPlaceholderUnchanged(t, map["codeFilePath" := fileName]);
  }

  /** Every registry template uses no placeholder but `{{codeFilePath}}`, and
      every file name is non-empty, so expansion with `{codeFilePath: fileName}`
      never substitutes "" and leaves no placeholder behind. */
  lemma RegistryTemplatesResolve(language: string)
    requires language in Registry
    ensures Resolves(Registry[language])
  {
    if language == "python" {
      PythonResolves(Registry[language]);
    } else if language == "javascript" {
      JavascriptResolves(Registry[language]);
    } else if language == "go" {
      GoResolves(Registry[language]);
    } else if language == "php" {
      PhpResolves(Registry[language]);
    } else if language == "r" {
      RResolves(Registry[language]);
    } else if language == "elixir" {
      ElixirResolves(Registry[language]);
    } else if language == "c" {
      CResolves(Registry[language]);
    } else if language == "cpp" {
      CppResolves(Registry[language]);
    } else if language == "java" {
      JavaResolves(Registry[language]);
    } else if language == "rust" {
      RustResolves(Registry[language]);
    } else if language == "solidity" {
      SolidityResolves(Registry[language]);
    } else if language == "csharp" {
      CsharpResolves(Registry[language]);
    }
  }

  /** The configuration's file name is non-empty and brace-free, and each of
      its templates uses no placeholder but `{{codeFilePath}}`, so that
      expanding it puts in the file name and leaves no placeholder. */
  ghost predicate Resolves(c: LanguageConfig)
  {
    && c.fileName != "" && '{' !in c.fileName
    && c.runCommand.Some? && OnlyCodeFilePath(c.runCommand.value, c.fileName)
    && (c.compileCommand.Some? ==> OnlyCodeFilePath(c.compileCommand.value, c.fileName))
  }

  /** `t` has no brace and expands to itself, or it is `pre{{codeFilePath}}post`
      with brace-free `pre` and `post` and expands to `pre + fileName + post`;
      either way no placeholder is left. */
  ghost predicate OnlyCodeFilePath(t: string, fileName: string)
  {
    && !HasPlaceholder(Expand(t, fileName))
    && (('{' !in t && Expand(t, fileName) == t) || exists i :: SlotAt(t, fileName, i))
  }

  /** `t` holds `{{codeFilePath}}` at index `i`, with no brace elsewhere, and
      expands to the file name in its place. */
  ghost predicate SlotAt(t: string, fileName: string, i: int)
  {
    && 0 <= i && i + |CodeFilePath| <= |t|
    && t[i..i + |CodeFilePath|] == CodeFilePath
    && '{' !in t[..i] && '{' !in t[i + |CodeFilePath|..]
    && Expand(t, fileName) == t[..i] + fileName + t[i + |CodeFilePath|..]
  }

  /** A template whose only token is some other name does not resolve, even
      though expanding it leaves no placeholder: it would put in "". */
  lemma OtherPlaceholderRejected(fileName: string)
    ensures Expand("{{foo}}", fileName) == ""
    ensures !OnlyCodeFilePath("{{foo}}", fileName)
  {
    var t := "{{foo}}";
    assert IsWord("foo");
    assert t == "{{" + "foo" + "}}" + "";
    LeadingToken("foo", "", map["codeFilePath" := fileName]);
    assert t[0] == '{';
  }

  /** A template of the form `pre{{codeFilePath}}post`, with brace-free
      `pre` and `post`, uses no other placeholder. */
  lemma SlotTemplate(pre: string, post: string, fileName: string)
    requires '{' !in pre && '{' !in post && '{' !in fileName
    ensures OnlyCodeFilePath(pre + CodeFilePath + post, fileName)
  {
    var t := pre + CodeFilePath + post;
    ExpandCodeFilePath(pre, post, fileName);
    assert t[..|pre|] == pre;
    assert t[|pre|..|pre| + |CodeFilePath|] == CodeFilePath;
    assert t[|pre| + |CodeFilePath|..] == post;
    assert SlotAt(t, fileName, |pre|);
  }

  /** A brace-free template uses no placeholder. */
  lemma PlainTemplate(t: string, fileName: string)
    requires '{' !in t
    ensures OnlyCodeFilePath(t, fileName)
  {
    ExpandPlain(t, fileName);
  }

  /** An interpreted language: its run template holds the one slot. */
  lemma ScriptResolves(c: LanguageConfig, pre: string)
    requires c.fileName != "" && '{' !in c.fileName && '{' !in pre
    requires c.runCommand == Some(pre + CodeFilePath) && c.compileCommand.None?
    ensures Resolves(c)
  {
    assert pre + CodeFilePath + "" == pre + CodeFilePath;
    SlotTemplate(pre, "", c.fileName);
  }

  /** A compiled language: its compile template holds the slot and its run
      template is plain. */
  lemma CompiledResolves(c: LanguageConfig, pre: string, post: string)
    requires c.fileName != "" && '{' !in c.fileName && '{' !in pre && '{' !in post
    requires c.runCommand.Some? && '{' !in c.runCommand.value
    requires c.compileCommand == Some(pre + CodeFilePath + post)
    ensures Resolves(c)
  {
    SlotTemplate(pre, post, c.fileName);
    PlainTemplate(c.runCommand.value, c.fileName);
  }

  /** Solidity: both templates hold the slot, the run template at its end. */
  lemma TwoSlotResolves(c: LanguageConfig, runPre: string, pre: string, post: string)
    requires c.fileName != "" && '{' !in c.fileName && '{' !in runPre && '{' !in pre && '{' !in post
    requires c.runCommand == Some(runPre + CodeFilePath)
    requires c.compileCommand == Some(pre + CodeFilePath + post)
    ensures Resolves(c)
  {
    assert runPre + CodeFilePath + "" == runPre + CodeFilePath;
    SlotTemplate(runPre, "", c.fileName);
    SlotTemplate(pre, post, c.fileName);
  }

  /** C#: a plain run template and no compile step. */
  lemma PlainResolves(c: LanguageConfig)
    requires c.fileName != "" && '{' !in c.fileName
    requires c.runCommand.Some? && '{' !in c.runCommand.value && c.compileCommand.None?
    ensures Resolves(c)
  {
    PlainTemplate(c.runCommand.value, c.fileName);
  }

  lemma PythonResolves(c: LanguageConfig)
    requires c == Registry["python"]
    ensures Resolves(c)
  {
    ScriptResolves(c, "python3 /workspace/");
  }

  lemma JavascriptResolves(c: LanguageConfig)
    requires c == Registry["javascript"]
    ensures Resolves(c)
  {
    ScriptResolves(c, "node /workspace/");
  }

  lemma GoResolves(c: LanguageConfig)
    requires c == Registry["go"]
    ensures Resolves(c)
  {
    ScriptResolves(c, "go run /workspace/");
  }

  lemma PhpResolves(c: LanguageConfig)
    requires c == Registry["php"]
    ensures Resolves(c)
  {
    ScriptResolves(c, "php /workspace/");
  }

  lemma RResolves(c: LanguageConfig)
    requires c == Registry["r"]
    ensures Resolves(c)
  {
    ScriptResolves(c, "Rscript /workspace/");
  }

  lemma ElixirResolves(c: LanguageConfig)
    requires c == Registry["elixir"]
    ensures Resolves(c)
  {
    ScriptResolves(c, "elixir /workspace/");
  }

  lemma CResolves(c: LanguageConfig)
    requires c == Registry["c"]
    ensures Resolves(c)
  {
    CompiledResolves(c, "gcc /workspace/", " -o /workspace/program");
  }

  lemma CppResolves(c: LanguageConfig)
    requires c == Registry["cpp"]
    ensures Resolves(c)
  {
    CompiledResolves(c, "g++ /workspace/", " -o /workspace/program");
  }

  lemma JavaResolves(c: LanguageConfig)
    requires c == Registry["java"]
    ensures Resolves(c)
  {
    assert c.compileCommand.value == "javac /workspace/" + CodeFilePath + "";
    CompiledResolves(c, "javac /workspace/", "");
  }

  lemma RustResolves(c: LanguageConfig)
    requires c == Registry["rust"]
    ensures Resolves(c)
  {
    CompiledResolves(c, "rustc /workspace/", " -o /workspace/binary");
  }

  lemma SolidityResolves(c: LanguageConfig)
    requires c == Registry["solidity"]
    ensures Resolves(c)
  {
    TwoSlotResolves(c, "cat /workspace/", "--optimize --bin /workspace/", " -o /workspace");
  }

  lemma CsharpResolves(c: LanguageConfig)
    requires c == Registry["csharp"]
    ensures Resolves(c)
  {
    PlainResolves(c);
  }
}
