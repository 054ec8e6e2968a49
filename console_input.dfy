/**
 * The part of a parsed console invocation that the command initializer reads:
 * the option values the framework parsed, and the raw command-line tokens.
 */
module ConsoleInput {
  import opened Wrappers

  /**
   * PHP truthiness of an option value: `null`, `""` and `"0"` are falsy,
   * every other string is truthy.
   */
  predicate Truthy(v: Option<string>) {
    v.Some? && v.value != "" && v.value != "0"
  }

  /**
   * A raw token names option `name` when it is the name itself (`--assumeRole`)
   * or the name followed by `=` and any value (`--assumeRole=false`).
   */
  predicate NamesOption(token: string, name: string) {
    token == name || name + "=" <= token
  }

  /** Whether some raw token names option `name`; its value is not looked at. */
  function TokensName(tokens: seq<string>, name: string): (present: bool)
    ensures present <==> exists i :: 0 <= i < |tokens| && NamesOption(tokens[i], name)
  {
    if tokens == [] then false
    else NamesOption(tokens[0], name) || TokensName(tokens[1..], name)
  }

  /**
   * Parsed input: `options` holds the options that carry a value (an option
   * that was not given, or was given without a value, reads as `null`);
   * `tokens` is the raw argument list.
   */
  datatype Input = Input(options: map<string, string>, tokens: seq<string>) {

    function GetOption(name: string): Option<string> {
      if name in options then Some(options[name]) else None
    }

    /** Presence test on the raw tokens, as used for `--assumeRole`. */
    predicate HasParameterOption(name: string) {
      TokensName(tokens, name)
    }
  }

  /** Giving the flag a value, whatever it is (even "false" or ""), still counts as giving the flag. */
  lemma FlagWithValueIsPresent(input: Input, name: string, value: string, i: nat)
    requires i < |input.tokens| && input.tokens[i] == name + "=" + value
    ensures input.HasParameterOption(name)
  {
  }
}
