/**
 * The system-prompt library of the Aria settings page: a dictionary from prompt
 * name to prompt text kept under the storage key `systemPrompts`, with save,
 * load, delete, the sorted listing that fills the drop-down, and loading an
 * entry into the editing form.
 */
module SystemPromptManager {
  import opened Js
  import opened JsStrings

  // ---------------------------------------------------------------------------
  // The dictionary as a value
  // ---------------------------------------------------------------------------

  /** The accessor of `Object.prototype` that a plain assignment cannot create as an own property. */
  const ProtoKey := "__proto__"

  /** `systemPrompts[name] || null` */
  function Lookup(prompts: map<string, string>, name: string): (r: Option<string>)
    ensures r.Some? <==> name in prompts && prompts[name] != ""
    ensures r.Some? ==> r.value == prompts[name]
  {
    if name in prompts && prompts[name] != "" then Some(prompts[name]) else None
  }

  /** A saved entry loads back as its text, except that an empty text loads as null. */
  lemma LookupAfterSave(prompts: map<string, string>, name: string, content: string, other: string)
    ensures Lookup(prompts[name := content], name) == if content != "" then Some(content) else None
    ensures other != name ==> Lookup(prompts[name := content], other) == Lookup(prompts, other)
  {
  }

  /** A deleted entry loads as null; every other entry is unaffected; deleting an absent name changes nothing. */
  lemma LookupAfterDelete(prompts: map<string, string>, name: string, other: string)
    ensures Lookup(prompts - {name}, name) == None
    ensures other != name ==> Lookup(prompts - {name}, other) == Lookup(prompts, other)
    ensures name !in prompts ==> prompts - {name} == prompts
  {
  }

  // ---------------------------------------------------------------------------
  // Order of the listing
  // ---------------------------------------------------------------------------

  /** Lexicographic order of strings, character by character: `Array.prototype.sort` without a comparator. */
  predicate Less(a: string, b: string)
    decreases |a|
  {
    if a == [] then b != []
    else if b == [] then false
    else if a[0] == b[0] then Less(a[1..], b[1..])
    else a[0] < b[0]
  }

  lemma {:induction false} LessIrreflexive(a: string)
    ensures !Less(a, a)
    decreases |a|
  {
    if a != [] {
      LessIrreflexive(a[1..]);
    }
  }

  lemma {:induction false} LessTransitive(a: string, b: string, c: string)
    requires Less(a, b) && Less(b, c)
    ensures Less(a, c)
    decreases |a|
  {
    if a != [] && b != [] && c != [] && a[0] == b[0] && b[0] == c[0] {
      LessTransitive(a[1..], b[1..], c[1..]);
    }
  }

  lemma {:induction false} LessTotal(a: string, b: string)
    ensures a == b || Less(a, b) || Less(b, a)
    decreases |a|
  {
    if a != [] && b != [] && a[0] == b[0] {
      LessTotal(a[1..], b[1..]);
      if a[1..] == b[1..] {
        assert a == [a[0]] + a[1..] && b == [b[0]] + b[1..];
      }
    }
  }

  /** Strictly ascending: sorted and without repetitions. */
  predicate Ascending(s: seq<string>) {
    forall i, j :: 0 <= i < j < |s| ==> Less(s[i], s[j])
  }

  /** The smallest name of a non-empty set. */
  method Min(names: set<string>) returns (m: string)
    requires names != {}
    ensures m in names
    ensures forall n :: n in names && n != m ==> Less(m, n)
  {
    m :| m in names;
    var rest := names - {m};
    while rest != {}
      invariant m in names && rest <= names
      invariant forall n :: n in names - rest && n != m ==> Less(m, n)
      decreases |rest|
    {
      var n :| n in rest;
      LessTotal(m, n);
      if n != m && Less(n, m) {
        forall k | k in names - rest && k != n
          ensures Less(n, k)
        {
          if k != m {
            LessTransitive(n, m, k);
          }
        }
        m := n;
      }
      rest := rest - {n};
    }
  }

  /** `Object.keys(prompts).sort()`: exactly the stored names, in ascending order. */
  method SortedNames(prompts: map<string, string>) returns (names: seq<string>)
    ensures Ascending(names)
    ensures forall n :: n in names <==> n in prompts
    ensures |names| == |prompts.Keys|
  {
    var remaining := prompts.Keys;
    names := [];
    while remaining != {}
      invariant remaining <= prompts.Keys
      invariant forall n :: n in prompts ==> (n in names <==> n !in remaining)
      invariant forall n :: n in names ==> n in prompts
      invariant Ascending(names)
      invariant forall i, n :: 0 <= i < |names| && n in remaining ==> Less(names[i], n)
      invariant |names| + |remaining| == |prompts.Keys|
      decreases |remaining|
    {
      var m := Min(remaining);
      forall i | 0 <= i < |names|
        ensures Less(names[i], m)
      {
      }
      names := names + [m];
      remaining := remaining - {m};
    }
  }

  /** A drop-down entry: `value` and the text shown. */
  datatype SelectOption = SelectOption(value: string, text: string)

  const Placeholder := SelectOption("", "-- Select a saved system prompt --")

  // ---------------------------------------------------------------------------
  // The library in storage
  // ---------------------------------------------------------------------------

  /** The prompt editor's two fields. */
  class PromptForm {
    var nameValue: string
    var contentValue: string

    constructor (name: string, content: string)
      ensures nameValue == name && contentValue == content
    {
      nameValue := name;
      contentValue := content;
    }
  }

  /** The `systemPrompts` entry of the store, read and written back by every operation. */
  class PromptLibrary {
    var prompts: map<string, string>

    /** `getAllSystemPrompts`: the stored dictionary, or an empty one. */
    constructor (stored: Option<map<string, string>>)
      ensures prompts == stored.GetOr(map[])
    {
      prompts := stored.GetOr(map[]);
    }

    /** `loadSystemPrompt` */
    function Load(name: string): (r: Option<string>)
      reads this
      ensures r == Lookup(prompts, name)
      ensures r.Some? ==> name in prompts
    {
      Lookup(prompts, name)
    }

    /**
     * `saveSystemPrompt`: a name that is empty or only whitespace is refused
     * and nothing is written; otherwise the entry is stored under the name
     * exactly as given (untrimmed) and every other entry is kept. The one
     * exception is the name `__proto__`: assigning a string to it sets no
     * property, so that save succeeds and stores nothing.
     */
    method Save(name: string, content: string) returns (r: Result<(), string>)
      modifies this
      ensures r.Failure? <==> IsBlank(name)
      ensures r.Failure? ==> r.error == "System prompt name cannot be empty" && prompts == old(prompts)
      ensures r.Success? && name != ProtoKey ==> prompts == old(prompts)[name := content]
      ensures r.Success? && name != ProtoKey ==> Load(name) == if content != "" then Some(content) else None
      ensures name == ProtoKey ==> r.Success? && prompts == old(prompts)
      ensures forall k :: k != name ==> Lookup(prompts, k) == Lookup(old(prompts), k)
    {
      if name == "" || Trim(name) == "" {
        return Failure("System prompt name cannot be empty");
      }
      if name != ProtoKey {
        prompts := prompts[name := content];
      }
      r := Success(());
    }

    /** `deleteSystemPrompt` */
    method Delete(name: string)
      modifies this
      ensures prompts == old(prompts) - {name}
      ensures Load(name) == None
      ensures name !in old(prompts) ==> prompts == old(prompts)
      ensures forall k :: k != name ==> Lookup(prompts, k) == Lookup(old(prompts), k)
    {
      prompts := prompts - {name};
    }

    /**
     * `populateSystemPromptLibrary`: the placeholder, then one option per
     * stored name, in ascending order.
     */
    method PopulateLibrary() returns (options: seq<SelectOption>)
      ensures |options| == |prompts.Keys| + 1 && options[0] == Placeholder
      ensures forall i :: 1 <= i < |options| ==> options[i].value == options[i].text && options[i].value in prompts
      ensures forall n :: n in prompts ==> exists i :: 1 <= i < |options| && options[i].value == n
      ensures forall i, j :: 1 <= i < j < |options| ==> Less(options[i].value, options[j].value)
    {
      var names := SortedNames(prompts);
      options := [Placeholder];
      var k := 0;
      while k < |names|
        invariant 0 <= k <= |names|
        invariant |options| == k + 1 && options[0] == Placeholder
        invariant forall i :: 1 <= i < |options| ==> options[i] == SelectOption(names[i - 1], names[i - 1])
      {
        options := options + [SelectOption(names[k], names[k])];
        k := k + 1;
      }
      forall n | n in prompts
        ensures exists i :: 1 <= i < |options| && options[i].value == n
      {
        var j :| 0 <= j < |names| && names[j] == n;
        assert options[j + 1].value == n;
      }
    }

    /** `loadSystemPromptIntoForm`: fills the form only when the entry loads. */
    method LoadIntoForm(name: string, form: PromptForm)
      modifies form
      ensures Load(name).None? ==> form.nameValue == old(form.nameValue) && form.contentValue == old(form.contentValue)
      ensures Load(name).Some? ==> form.nameValue == name && form.contentValue == Load(name).value
    {
      var content := Load(name);
      if content.Some? {
        form.nameValue := name;
        form.contentValue := content.value;
      }
    }
  }
}
