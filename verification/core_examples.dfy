/** The rows of the table test of `GetInput` (core/core_test.go, `Test_GetInput`),
    stated as facts about the model.

    Each row is first stated for every name whose key holds the row's value, and
    then, in TestGetInputTable, for the test's own names over its own environment.
 */
module CoreExamples {
  import opened Wrappers
  import opened Strings
  import opened Options
  import opened Core

  /** The environment the table test sets up. */
  const TestEnv: map<string, string> := map[
    "INPUT_MY_INPUT" := "val",
    "INPUT_MISSING" := "",
    "INPUT_SPECIAL_CHARS_'\t\"\\" := "'\t\"\\ response ",
    "INPUT_MULTIPLE_SPACES_VARIABLE" := "I have multiple spaces",
    "INPUT_WITH_TRAILING_WHITESPACE" := "  some val  "
  ]

  // Keys of the test's display names: each space becomes an underscore, every
  // letter is upper-cased whatever its case in the name, and tab, quote and
  // backslash are kept.

  lemma KeyMyInput()
    ensures EnvKey("my input") == "INPUT_MY_INPUT"
  {
    EnvKeyUnique("my input", "INPUT_MY_INPUT");
  }

  lemma KeyMixedCase()
    ensures EnvKey("My InPuT") == "INPUT_MY_INPUT"
  {
    EnvKeyUnique("My InPuT", "INPUT_MY_INPUT");
  }

  lemma KeyMissing()
    ensures EnvKey("missing") == "INPUT_MISSING"
  {
    EnvKeyUnique("missing", "INPUT_MISSING");
  }

  lemma KeySpecialChars()
    ensures EnvKey("special chars_'\t\"\\") == "INPUT_SPECIAL_CHARS_'\t\"\\"
  {
    EnvKeyUnique("special chars_'\t\"\\", "INPUT_SPECIAL_CHARS_'\t\"\\");
  }

  lemma KeyMultipleSpaces()
    ensures EnvKey("multiple spaces variable") == "INPUT_MULTIPLE_SPACES_VARIABLE"
  {
    EnvKeyUnique("multiple spaces variable", "INPUT_MULTIPLE_SPACES_VARIABLE");
  }

  lemma KeyTrailingWhitespace()
    ensures EnvKey("with trailing whitespace") == "INPUT_WITH_TRAILING_WHITESPACE"
  {
    EnvKeyUnique("with trailing whitespace", "INPUT_WITH_TRAILING_WHITESPACE");
  }

  // What `strings.TrimSpace` makes of the values the table sets.

  lemma TrimVal()
    ensures TrimSpace("val") == "val"
  {
    TrimSpaceIsTrimming("val", "val", 0);
  }

  lemma TrimEmpty()
    ensures TrimSpace("") == ""
  {
    TrimSpaceIsTrimming("", "", 0);
  }

  lemma TrimSpecialChars()
    ensures TrimSpace("'\t\"\\ response ") == "'\t\"\\ response"
  {
    TrimSpaceIsTrimming("'\t\"\\ response ", "'\t\"\\ response", 0);
  }

  lemma TrimMultipleSpaces()
    ensures TrimSpace("I have multiple spaces") == "I have multiple spaces"
  {
    TrimSpaceIsTrimming("I have multiple spaces", "I have multiple spaces", 0);
  }

  lemma TrimSomeVal()
    ensures TrimSpace("  some val  ") == "some val"
  {
    TrimSpaceIsTrimming("  some val  ", "some val", 2);
  }

  /** Rows reading "my input" (and its spelling "My InPuT"): for a name whose key
      holds "val", every options record yields "val". */
  lemma RowsMyInput(name: string, env: map<string, string>)
    requires Lookup(env, EnvKey(name)) == "val"
    ensures GetInput(name, None, env) == Success("val")
    ensures GetInput(name, Some(Unset), env) == Success("val")
    ensures GetInput(name, Some(InputOptions(Some(true), None)), env) == Success("val")
  {
    TrimVal();
    assert |"val"| == 3;  // so the required check sees a non-empty value
    GetInputByOptions(name, None, env, "val");
    GetInputByOptions(name, Some(Unset), env, "val");
    GetInputByOptions(name, Some(InputOptions(Some(true), None)), env, "val");
  }

  /** Row "missing": for a name whose key is set to "" or not set, an input that is
      not required reads as "". */
  lemma RowMissing(name: string, env: map<string, string>)
    requires Lookup(env, EnvKey(name)) == ""
    ensures GetInput(name, Some(InputOptions(Some(false), None)), env) == Success("")
  {
    TrimEmpty();
    GetInputByOptions(name, Some(InputOptions(Some(false), None)), env, "");
  }

  /** The same input marked as required is the error naming it. */
  lemma RowMissingRequired(name: string, env: map<string, string>)
    requires Lookup(env, EnvKey(name)) == ""
    ensures GetInput(name, Some(InputOptions(Some(true), None)), env)
            == Failure(RequiredInputMissing(name))
  {
    GetInputByOptions(name, Some(InputOptions(Some(true), None)), env, "");
  }

  /** Row "special chars": tab, quote and backslash in the value survive, and only
      its trailing space is trimmed. */
  lemma RowSpecialChars(name: string, env: map<string, string>)
    requires Lookup(env, EnvKey(name)) == "'\t\"\\ response "
    ensures GetInput(name, None, env) == Success("'\t\"\\ response")
  {
    TrimSpecialChars();
    GetInputByOptions(name, None, env, "'\t\"\\ response ");
  }

  /** Row "multiple spaces variable": inner spaces are kept. */
  lemma RowMultipleSpaces(name: string, env: map<string, string>)
    requires Lookup(env, EnvKey(name)) == "I have multiple spaces"
    ensures GetInput(name, None, env) == Success("I have multiple spaces")
  {
    TrimMultipleSpaces();
    GetInputByOptions(name, None, env, "I have multiple spaces");
  }

  /** Rows "with trailing whitespace": surrounding spaces are trimmed by default and
      when asked, and kept when trimming is off. */
  lemma RowsTrailingWhitespace(name: string, env: map<string, string>)
    requires Lookup(env, EnvKey(name)) == "  some val  "
    ensures GetInput(name, None, env) == Success("some val")
    ensures GetInput(name, Some(InputOptions(None, Some(true))), env) == Success("some val")
    ensures GetInput(name, Some(InputOptions(None, Some(false))), env) == Success("  some val  ")
  {
    TrimSomeVal();
    GetInputByOptions(name, None, env, "  some val  ");
    GetInputByOptions(name, Some(InputOptions(None, Some(true))), env, "  some val  ");
    GetInputByOptions(name, Some(InputOptions(None, Some(false))), env, "  some val  ");
  }

  // The values the test's environment holds under each key.

  lemma EnvMyInput()
    ensures Lookup(TestEnv, "INPUT_MY_INPUT") == "val"
  {
    assert "INPUT_MY_INPUT" in TestEnv;
  }

  lemma EnvMissing()
    ensures Lookup(TestEnv, "INPUT_MISSING") == ""
  {
    assert "INPUT_MISSING" in TestEnv;
  }

  lemma EnvSpecialChars()
    ensures Lookup(TestEnv, "INPUT_SPECIAL_CHARS_'\t\"\\") == "'\t\"\\ response "
  {
    assert "INPUT_SPECIAL_CHARS_'\t\"\\" in TestEnv;
  }

  lemma EnvMultipleSpaces()
    ensures Lookup(TestEnv, "INPUT_MULTIPLE_SPACES_VARIABLE") == "I have multiple spaces"
  {
    assert "INPUT_MULTIPLE_SPACES_VARIABLE" in TestEnv;
  }

  lemma EnvTrailingWhitespace()
    ensures Lookup(TestEnv, "INPUT_WITH_TRAILING_WHITESPACE") == "  some val  "
  {
    assert "INPUT_WITH_TRAILING_WHITESPACE" in TestEnv;
  }

  /** Every row of the table holds for the test's own names in the test's
      environment. */
  lemma TestGetInputTable()
    ensures GetInput("my input", None, TestEnv) == Success("val")
    ensures GetInput("my input", Some(Unset), TestEnv) == Success("val")
    ensures GetInput("my input", Some(InputOptions(Some(true), None)), TestEnv) == Success("val")
    ensures GetInput("missing", Some(InputOptions(Some(false), None)), TestEnv) == Success("")
    ensures GetInput("My InPuT", None, TestEnv) == Success("val")
    ensures GetInput("special chars_'\t\"\\", None, TestEnv) == Success("'\t\"\\ response")
    ensures GetInput("multiple spaces variable", None, TestEnv) == Success("I have multiple spaces")
    ensures GetInput("with trailing whitespace", None, TestEnv) == Success("some val")
    ensures GetInput("with trailing whitespace", Some(InputOptions(None, Some(true))), TestEnv)
            == Success("some val")
    ensures GetInput("with trailing whitespace", Some(InputOptions(None, Some(false))), TestEnv)
            == Success("  some val  ")
  {
    KeyMyInput();
    KeyMixedCase();
    KeyMissing();
    KeySpecialChars();
    KeyMultipleSpaces();
    KeyTrailingWhitespace();
    EnvMyInput();
    EnvMissing();
    EnvSpecialChars();
    EnvMultipleSpaces();
    EnvTrailingWhitespace();
    RowsMyInput("my input", TestEnv);
    RowsMyInput("My InPuT", TestEnv);
    RowMissing("missing", TestEnv);
    RowSpecialChars("special chars_'\t\"\\", TestEnv);
    RowMultipleSpaces("multiple spaces variable", TestEnv);
    RowsTrailingWhitespace("with trailing whitespace", TestEnv);
  }
}
