/** The part of the zod validation library the schemas use, reduced to what a
    `safeParse` reports: the list of issues, each with the path of the value
    that failed and the custom message the schema gave for that check (None
    where the library's default message applies). The string-format checks
    (email, url, uuid, datetime) are library code and enter as predicates. */
module Zod {
  import opened JsText
  import opened Outcomes

  datatype PathPart = Key(name: string) | Index(i: nat)

  datatype Issue = Issue(path: seq<PathPart>, message: Option<string>)

  /** The library's format checks. */
  datatype FormatChecks = FormatChecks(
    isEmail: string -> bool, isUrl: string -> bool, isUuid: string -> bool, isDatetime: string -> bool)

  /** One check: no issue when it holds, one issue at `path` otherwise. */
  function Check(path: seq<PathPart>, ok: bool, message: Option<string>): seq<Issue> {
    if ok then [] else [Issue(path, message)]
  }

  /** `.int()`: a number without fractional part. */
  predicate IsInteger(x: real) {
    x == x.Floor as real
  }

  /** `.min(lo)` / `.max(hi)` on a string count UTF-16 code units. */
  predicate LengthAtLeast(s: string, lo: nat) {
    Utf16Length(s) >= lo
  }

  predicate LengthAtMost(s: string, hi: nat) {
    Utf16Length(s) <= hi
  }

  /** `.min(1)` on a string is non-emptiness. */
  lemma NonEmptyIsMinOne(s: string)
    ensures LengthAtLeast(s, 1) <==> s != ""
  {
  }

  /** The issues of every element of an array, each under its index. */
  function EachElement<T>(path: seq<PathPart>, items: seq<T>, issuesOf: (seq<PathPart>, T) -> seq<Issue>): seq<Issue>
    decreases |items|
  {
    if items == [] then []
    else EachElement(path, items[..|items| - 1], issuesOf)
         + issuesOf(path + [Index(|items| - 1)], items[|items| - 1])
  }

  /** An array passes exactly when each of its elements does. */
  lemma {:induction false} EachElementEmpty<T>(path: seq<PathPart>, items: seq<T>,
                                               issuesOf: (seq<PathPart>, T) -> seq<Issue>)
    ensures EachElement(path, items, issuesOf) == []
            <==> forall i :: 0 <= i < |items| ==> issuesOf(path + [Index(i)], items[i]) == []
    decreases |items|
  {
    if items != [] {
      var init := items[..|items| - 1];
      EachElementEmpty(path, init, issuesOf);
      assert forall i :: 0 <= i < |init| ==> init[i] == items[i];
    }
  }
}
