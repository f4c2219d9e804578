/** Configuration of the Ruby CLI (lib/csa/config.rb): credentials from
    options, the environment, a conventional key file or stdin, and the
    normalized `--filter` list. */
module CsaConfig {
  import opened Wrappers
  import Strings
  import Sequences

  /** FILTER_ALIASES: each accepted spelling and the filter it stands for. */
  const FilterAliases: map<string, string> := map[
    "error" := "error", "errors" := "error", "expired" := "error",
    "warn" := "warn", "warning" := "warn", "warnings" := "warn", "expiring_or_invalid" := "warn",
    "ok" := "ok", "fine" := "ok", "good" := "ok"]

  /** VALID_FILTERS. */
  const ValidFilters: seq<string> := ["error", "warn", "ok"]

  datatype UserError = UserError(message: string)

  const StdinWithKeyFileMessage: string := "--api-key-stdin cannot be used with --api-key-file or ASC_KEY_FILE"
  const EmptyStdinMessage: string := "--api-key-stdin was set, but stdin was empty"

  /** The parsed command-line options; a flag that was not given is false. */
  datatype Options = Options(
    apiKeyId: Option<string>, apiIssuerId: Option<string>, apiKeyFile: Option<string>,
    apiKeyStdin: bool, inHouse: bool, json: bool, excludeDevelopment: bool, filter: Option<string>)

  /** The process around the CLI: ENV, Dir.pwd, the paths for which File.file?
      holds, and what `$stdin.read` would return. */
  datatype Host = Host(env: map<string, string>, pwd: string, regularFiles: set<string>, stdin: string)

  /** A resolved Config: the readers of the Ruby object. */
  datatype Config = Config(
    apiKeyId: Option<string>, apiIssuerId: Option<string>,
    apiKeyFile: Option<string>, apiKeyContent: Option<string>,
    inHouse: bool, json: bool, excludeDevelopment: bool,
    selectedFilters: Option<seq<string>>)

  /** ENV.fetch(name, nil). */
  function EnvFetch(env: map<string, string>, name: string): Option<string> {
    if name in env then Some(env[name]) else None
  }

  /** Ruby's `a || b` on strings: every string, the empty one too, is truthy. */
  function OrElse(a: Option<string>, b: Option<string>): (r: Option<string>)
    ensures a.Some? ==> r == a
    ensures a.None? ==> r == b
  {
    if a.Some? then a else b
  }

  /** File.join(dir, name). */
  function JoinPath(dir: string, name: string): string {
    if dir != [] && dir[|dir| - 1] == '/' then dir + name else dir + "/" + name
  }

  function DefaultKeyFile(pwd: string, keyId: string): string {
    JoinPath(pwd, "AuthKey_" + keyId + ".p8")
  }

  /** resolve_explicit_api_key_file: the option, else ASC_KEY_FILE. */
  function ResolveExplicitApiKeyFile(provided: Option<string>, env: map<string, string>): (r: Option<string>)
    ensures provided.Some? ==> r == provided
    ensures provided.None? ==> r == EnvFetch(env, "ASC_KEY_FILE")
  {
    OrElse(provided, EnvFetch(env, "ASC_KEY_FILE"))
  }

  /** resolve_api_key_file: an explicit file always wins; with stdin requested
      there is none; otherwise AuthKey_<id>.p8 in the working directory, only
      if it is a regular file. */
  function ResolveApiKeyFile(explicit: Option<string>, keyId: Option<string>, expectStdin: bool, host: Host): (r: Option<string>)
    ensures explicit.Some? ==> r == explicit
    ensures explicit.None? && expectStdin ==> r == None
    ensures explicit.None? && !expectStdin ==>
      (r.Some? <==> keyId.Some? && DefaultKeyFile(host.pwd, keyId.value) in host.regularFiles)
    ensures explicit.None? && r.Some? ==> r == Some(DefaultKeyFile(host.pwd, keyId.value))
  {
    if explicit.Some? then explicit
    else if expectStdin then None
    else
      var candidate := if keyId.Some? then Some(DefaultKeyFile(host.pwd, keyId.value)) else None;
      if candidate.Some? && candidate.value in host.regularFiles then candidate else None
  }

  /** Whether resolve_api_key_content gets as far as reading stdin. */
  predicate ReadsStdin(expectStdin: bool, explicit: Option<string>) {
    expectStdin && explicit.None?
  }

  /** resolve_api_key_content: nothing unless stdin is requested; stdin next
      to an explicit key file is refused before stdin is read; blank stdin is
      refused; otherwise the text read, untrimmed. */
  function ResolveApiKeyContent(expectStdin: bool, explicit: Option<string>, stdin: string): (r: Result<Option<string>, UserError>)
    ensures !expectStdin ==> r == Success(None)
    ensures expectStdin && explicit.Some? ==> r == Failure(UserError(StdinWithKeyFileMessage))
    ensures ReadsStdin(expectStdin, explicit) ==>
      if Strings.AllRubySpace(stdin) then r == Failure(UserError(EmptyStdinMessage)) else r == Success(Some(stdin))
  {
    if !expectStdin then Success(None)
    else if explicit.Some? then Failure(UserError(StdinWithKeyFileMessage))
    else if Strings.Strip(stdin) == [] then Failure(UserError(EmptyStdinMessage))
    else Success(Some(stdin))
  }

  /** When stdin is not read, what it holds cannot change the outcome. */
  lemma StdinUnreadIsIrrelevant(expectStdin: bool, explicit: Option<string>, stdin1: string, stdin2: string)
    requires !ReadsStdin(expectStdin, explicit)
    ensures ResolveApiKeyContent(expectStdin, explicit, stdin1) == ResolveApiKeyContent(expectStdin, explicit, stdin2)
  {
  }

  /** `value.strip.downcase`. */
  function Clean(token: string): string {
    Strings.Lower(Strings.Strip(token))
  }

  /** `.map { |value| value.strip.downcase }`. */
  function Cleaned(tokens: seq<string>): (r: seq<string>)
    ensures |r| == |tokens|
    ensures forall i :: 0 <= i < |tokens| ==> r[i] == Clean(tokens[i])
  {
    Sequences.Map(Clean, tokens)
  }

  /** `.reject(&:empty?)`: the entries in their order, each non-empty one
      exactly as often as it occurs, and no empty one. */
  function RejectEmpty(s: seq<string>): (r: seq<string>)
    ensures forall t :: t in r ==> t != []
    ensures |r| <= |s|
    ensures Sequences.IsSubsequence(r, s)
    ensures multiset(r) == multiset(s)[[] := 0]
  {
    if s == [] then []
    else
      var rest := RejectEmpty(s[1..]);
      assert s == [s[0]] + s[1..];
      assert multiset(s) == multiset{s[0]} + multiset(s[1..]);
      if s[0] == [] then
        assert rest != [] ==> rest[0] in rest;
        rest
      else
        var r := [s[0]] + rest;
        assert r[1..] == rest;
        assert multiset(r) == multiset{s[0]} + multiset(rest);
        r
  }

  /** Nothing is rejected from a list without empty entries. */
  lemma {:induction false} RejectEmptyKeepsNonEmpty(s: seq<string>)
    requires forall i :: 0 <= i < |s| ==> s[i] != []
    ensures RejectEmpty(s) == s
  {
    if s != [] {
      RejectEmptyKeepsNonEmpty(s[1..]);
    }
  }

  /** `.map { |value| value.strip.downcase }.reject(&:empty?)`. */
  function CleanTokens(tokens: seq<string>): (r: seq<string>)
    ensures forall t :: t in r ==> t != []
    ensures |r| <= |tokens|
    ensures Sequences.IsSubsequence(r, Cleaned(tokens))
    ensures multiset(r) == multiset(Cleaned(tokens))[[] := 0]
  {
    RejectEmpty(Cleaned(tokens))
  }

  /** Every entry that is not blank survives cleaning, stripped and lower-cased. */
  lemma CleanTokensKeepsNonBlank(tokens: seq<string>, k: int)
    requires 0 <= k < |tokens| && !Strings.AllRubySpace(tokens[k])
    ensures Clean(tokens[k]) in CleanTokens(tokens)
  {
    var t := Clean(tokens[k]);
    assert |t| == |Strings.Strip(tokens[k])| > 0;
    assert Cleaned(tokens)[k] == t;
    assert multiset(CleanTokens(tokens))[t] == multiset(Cleaned(tokens))[t] > 0;
  }

  /** `.map { |value| FILTER_ALIASES[value] || value }`. */
  function ApplyAliases(tokens: seq<string>): (r: seq<string>)
    ensures |r| == |tokens|
    ensures forall i :: 0 <= i < |tokens| ==>
      r[i] == if tokens[i] in FilterAliases then FilterAliases[tokens[i]] else tokens[i]
  {
    seq(|tokens|, i requires 0 <= i < |tokens| =>
      if tokens[i] in FilterAliases then FilterAliases[tokens[i]] else tokens[i])
  }

  predicate AllValid(tokens: seq<string>) {
    forall t :: t in tokens ==> t in ValidFilters
  }

  predicate AllAliases(tokens: seq<string>) {
    forall t :: t in tokens ==> t in FilterAliases
  }

  predicate NoDuplicates(s: seq<string>) {
    forall i, j :: 0 <= i < j < |s| ==> s[i] != s[j]
  }

  /** The position of the first occurrence of `x` in `s`. */
  function FirstIndex(s: seq<string>, x: string): (i: nat)
    requires x in s
    ensures i < |s| && s[i] == x
    ensures forall k :: 0 <= k < i ==> s[k] != x
  {
    if s[0] == x then 0
    else 1 + FirstIndex(s[1..], x)
  }

  /** Only the first occurrence has no earlier copy. */
  lemma FirstIndexUnique(s: seq<string>, x: string, j: int)
    requires 0 <= j < |s| && s[j] == x
    requires forall k :: 0 <= k < j ==> s[k] != x
    ensures FirstIndex(s, x) == j
  {
  }

  /** Dropping the last element moves no first occurrence that remains. */
  lemma FirstIndexOfPrefix(s: seq<string>, x: string)
    requires |s| > 0 && x in s[..|s| - 1]
    ensures FirstIndex(s, x) == FirstIndex(s[..|s| - 1], x)
  {
    FirstIndexUnique(s, x, FirstIndex(s[..|s| - 1], x));
  }

  /** Array#uniq: each element once, at its first occurrence, in the order of
      those first occurrences. */
  function Uniq(s: seq<string>): (r: seq<string>)
    ensures forall x :: x in r <==> x in s
    ensures NoDuplicates(r)
    ensures |r| <= |s|
    ensures forall i, k :: 0 <= i < k < |r| ==> FirstIndex(s, r[i]) < FirstIndex(s, r[k])
  {
    if s == [] then []
    else
      var prefix := s[..|s| - 1];
      var init := Uniq(prefix);
      var last := s[|s| - 1];
      assert forall x :: x in s <==> x in prefix || x == last;
      forall x | x in init
        ensures FirstIndex(s, x) == FirstIndex(prefix, x)
      {
        FirstIndexOfPrefix(s, x);
      }
      if last in prefix then init
      else
        FirstIndexUnique(s, last, |s| - 1);
        var r := init + [last];
        assert forall i :: 0 <= i < |init| ==> r[i] == init[i] && r[i] in init;
        r
  }

  /** Array difference `a - b`: the elements of `a` not in `b`, each as often
      as in `a`, in the order of `a`. */
  function Without(a: seq<string>, b: seq<string>): (r: seq<string>)
    ensures forall x :: x in r <==> x in a && x !in b
    ensures Sequences.IsSubsequence(r, a)
    ensures forall x :: multiset(r)[x] == if x in b then 0 else multiset(a)[x]
  {
    if a == [] then []
    else
      var rest := Without(a[1..], b);
      assert a == [a[0]] + a[1..];
      if a[0] in b then rest
      else
        assert ([a[0]] + rest)[1..] == rest;
        [a[0]] + rest
  }

  /** The token list resolve_selected_filters builds before validating it. */
  function SelectedTokens(filterString: string): seq<string> {
    Uniq(ApplyAliases(CleanTokens(Strings.Split(filterString, ','))))
  }

  function InvalidFiltersMessage(invalid: seq<string>): string {
    "Invalid filter(s): " + Strings.Join(invalid, ", ") + ". Expected: " + Strings.Join(ValidFilters, ", ")
  }

  /** resolve_selected_filters: nil stays nil; otherwise the cleaned, aliased,
      de-duplicated tokens, each in VALID_FILTERS, or a UserError naming
      every token left over. */
  function ResolveSelectedFilters(filterString: Option<string>): (r: Result<Option<seq<string>>, UserError>)
    ensures filterString.None? ==> r == Success(None)
    ensures filterString.Some? && r.Success? ==> r.value == Some(SelectedTokens(filterString.value))
    ensures r.Success? && r.value.Some? ==> NoDuplicates(r.value.value) && AllValid(r.value.value)
    ensures filterString.Some? ==> (r.Success? <==> AllValid(SelectedTokens(filterString.value)))
    ensures r.Failure? ==>
      r.error == UserError(InvalidFiltersMessage(Without(SelectedTokens(filterString.value), ValidFilters)))
  {
    if filterString.None? then Success(None)
    else
      var selected := SelectedTokens(filterString.value);
      var invalid := Without(selected, ValidFilters);
      if invalid == [] then Success(Some(selected))
      else
        assert invalid[0] in invalid;
        Failure(UserError(InvalidFiltersMessage(invalid)))
  }

  lemma AliasTargetsAreValid(k: string)
    requires k in FilterAliases
    ensures FilterAliases[k] in ValidFilters
  {
  }

  lemma ValidFiltersAreAliases(x: string)
    requires x in ValidFilters
    ensures x in FilterAliases && FilterAliases[x] == x
  {
  }

  /** After aliasing, every token is valid exactly when every token before
      aliasing was one of the alias spellings. */
  lemma {:induction false} AliasedValidIffAliases(tokens: seq<string>)
    ensures AllValid(ApplyAliases(tokens)) <==> AllAliases(tokens)
  {
    var aliased := ApplyAliases(tokens);
    if AllAliases(tokens) {
      forall t | t in aliased
        ensures t in ValidFilters
      {
        var i :| 0 <= i < |aliased| && aliased[i] == t;
        AliasTargetsAreValid(tokens[i]);
      }
    } else {
      var bad :| bad in tokens && bad !in FilterAliases;
      var i :| 0 <= i < |tokens| && tokens[i] == bad;
      assert aliased[i] == bad;
      if bad in ValidFilters {
        ValidFiltersAreAliases(bad);
      }
    }
  }

  /** A filter string is accepted exactly when each non-blank entry, stripped
      and lower-cased, is one of the alias spellings. */
  lemma AcceptedIffAllAliases(filterString: string)
    ensures ResolveSelectedFilters(Some(filterString)).Success? <==>
      AllAliases(CleanTokens(Strings.Split(filterString, ',')))
  {
    var cleaned := CleanTokens(Strings.Split(filterString, ','));
    AliasedValidIffAliases(cleaned);
    assert AllValid(SelectedTokens(filterString)) <==> AllValid(ApplyAliases(cleaned));
  }

  /** A field without the separator is split into itself alone. */
  lemma {:induction false} SplitAtSeparator(a: string, b: string, sep: char)
    requires sep !in a
    ensures Strings.Split(a + [sep] + b, sep) == [a] + Strings.Split(b, sep)
  {
    if a != [] {
      assert (a + [sep] + b)[1..] == a[1..] + [sep] + b;
      SplitAtSeparator(a[1..], b, sep);
      var rest := Strings.Split(a[1..] + [sep] + b, sep);
      assert rest[0] == a[1..] && rest[1..] == Strings.Split(b, sep);
      assert (a + [sep] + b)[0] == a[0] && a[0] != sep;
      assert [a[0]] + a[1..] == a;
    } else {
      assert (a + [sep] + b)[1..] == b;
    }
  }

  lemma {:induction false} SplitWithoutSeparator(a: string, sep: char)
    requires sep !in a
    ensures Strings.Split(a, sep) == [a]
  {
    if a != [] {
      SplitWithoutSeparator(a[1..], sep);
      assert [a[0]] + a[1..] == a;
    }
  }

  lemma StripErrors()
    ensures Strings.Strip("Errors") == "Errors"
  {
    Strings.StripOfTrimmed("Errors");
  }

  lemma LowerErrors()
    ensures Strings.Lower("Errors") == "errors"
  {
  }

  lemma StripExpired()
    ensures Strings.Strip(" expired") == "expired"
  {
    calc {
      Strings.Strip(" expired");
      == { assert " expired" == [' '] + "expired"; }
      Strings.Strip([' '] + "expired");
      == { Strings.StripSkipsLeadingSpace(' ', "expired"); }
      Strings.Strip("expired");
      == { Strings.StripOfTrimmed("expired"); }
      "expired";
    }
  }

  lemma LowerExpired()
    ensures Strings.Lower("expired") == "expired"
  {
  }

  lemma CleanErrors()
    ensures Clean("Errors") == "errors"
  {
    StripErrors();
    LowerErrors();
  }

  lemma CleanExpired()
    ensures Clean(" expired") == "expired"
  {
    StripExpired();
    LowerExpired();
  }

  lemma ExampleSplit()
    ensures Strings.Split("Errors, expired", ',') == ["Errors", " expired"]
  {
    var text := "Errors" + [','] + " expired";
    assert "Errors, expired" == text;
    calc {
      Strings.Split(text, ',');
      == { SplitAtSeparator("Errors", " expired", ','); }
      ["Errors"] + Strings.Split(" expired", ',');
      == { SplitWithoutSeparator(" expired", ','); }
      ["Errors", " expired"];
    }
  }

  lemma ExampleTokens()
    ensures CleanTokens(Strings.Split("Errors, expired", ',')) == ["errors", "expired"]
  {
    calc {
      CleanTokens(Strings.Split("Errors, expired", ','));
      == { ExampleSplit(); }
      RejectEmpty(Cleaned(["Errors", " expired"]));
      == { Sequences.MapPair(Clean, "Errors", " expired"); }
      RejectEmpty([Clean("Errors")] + [Clean(" expired")]);
      == { CleanErrors(); CleanExpired(); }
      RejectEmpty(["errors"] + ["expired"]);
      == { assert ["errors"] + ["expired"] == ["errors", "expired"]; }
      RejectEmpty(["errors", "expired"]);
      == { RejectEmptyKeepsNonEmpty(["errors", "expired"]); }
      ["errors", "expired"];
    }
  }

  /** The worked example: "Errors, expired" selects ["error"]. */
  lemma ErrorsAndExpiredSelectError()
    ensures ResolveSelectedFilters(Some("Errors, expired")) == Success(Some(["error"]))
  {
    calc {
      SelectedTokens("Errors, expired");
      == { ExampleTokens(); }
      Uniq(ApplyAliases(["errors", "expired"]));
      == { assert ApplyAliases(["errors", "expired"]) == ["error", "error"]; }
      Uniq(["error", "error"]);
      == { assert ["error", "error"][..1] == ["error"]; assert ["error"][..0] == []; }
      ["error"];
    }
    assert AllValid(["error"]);
  }

  /** What resolve_api_key_content gives for these options. */
  function StdinKey(options: Options, host: Host): Result<Option<string>, UserError> {
    ResolveApiKeyContent(options.apiKeyStdin, ResolveExplicitApiKeyFile(options.apiKeyFile, host.env), host.stdin)
  }

  /** Config#initialize: each field from its option or the environment, the
      key file and the stdin key resolved, and the filter list validated.
      The error raised is that of resolve_api_key_content when it raises,
      and otherwise that of resolve_selected_filters. */
  function NewConfig(options: Options, host: Host): (r: Result<Config, UserError>)
    ensures r.Success? ==> r.value.apiKeyId == OrElse(options.apiKeyId, EnvFetch(host.env, "ASC_KEY_ID"))
    ensures r.Success? ==> r.value.apiIssuerId == OrElse(options.apiIssuerId, EnvFetch(host.env, "ASC_ISSUER_ID"))
    ensures r.Success? ==>
      r.value.apiKeyFile
      == ResolveApiKeyFile(ResolveExplicitApiKeyFile(options.apiKeyFile, host.env), r.value.apiKeyId, options.apiKeyStdin, host)
    ensures r.Success? ==> (r.value.apiKeyContent.Some? <==> options.apiKeyStdin)
    ensures r.Success? && options.apiKeyStdin ==>
      r.value.apiKeyContent == Some(host.stdin) && !Strings.AllRubySpace(host.stdin) && r.value.apiKeyFile == None
    ensures r.Success? ==>
      r.value.inHouse == options.inHouse && r.value.json == options.json
      && r.value.excludeDevelopment == options.excludeDevelopment
    ensures r.Success? ==> ResolveSelectedFilters(options.filter) == Success(r.value.selectedFilters)
    ensures StdinKey(options, host).Failure? ==> r == Failure(StdinKey(options, host).error)
    ensures StdinKey(options, host).Success? && ResolveSelectedFilters(options.filter).Failure? ==>
      r == Failure(ResolveSelectedFilters(options.filter).error)
    ensures r.Failure? <==> StdinKey(options, host).Failure? || ResolveSelectedFilters(options.filter).Failure?
  {
    var apiKeyId := OrElse(options.apiKeyId, EnvFetch(host.env, "ASC_KEY_ID"));
    var apiIssuerId := OrElse(options.apiIssuerId, EnvFetch(host.env, "ASC_ISSUER_ID"));
    var explicit := ResolveExplicitApiKeyFile(options.apiKeyFile, host.env);
    var apiKeyFile := ResolveApiKeyFile(explicit, apiKeyId, options.apiKeyStdin, host);
    var apiKeyContent := ResolveApiKeyContent(options.apiKeyStdin, explicit, host.stdin);
    var selectedFilters := ResolveSelectedFilters(options.filter);
    if apiKeyContent.Failure? then Failure(apiKeyContent.error)
    else if selectedFilters.Failure? then Failure(selectedFilters.error)
    else
      Success(Config(apiKeyId, apiIssuerId, apiKeyFile, apiKeyContent.value,
                     options.inHouse, options.json, options.excludeDevelopment, selectedFilters.value))
  }
}
