/** The records the drop-in writes into the site's database: option values
    (PHP scalars and nested arrays), user accounts, the first post and the
    default category rows. */
module Store {

  import opened Php

  /** A key of a PHP array. */
  datatype Key = IntKey(i: int) | StrKey(s: string)

  /** An option value as update_option() stores it: a scalar or an ordered
      PHP array. */
  datatype Value =
    | Int(i: int)
    | Str(s: string)
    | Bool(b: bool)
    | Arr(entries: seq<(Key, Value)>)

  /** The entries of a PHP list whose keys count up from `start`. */
  function ListEntries(items: seq<string>, start: int): seq<(Key, Value)>
    decreases |items|
  {
    if items == [] then [] else [(IntKey(start), Str(items[0]))] + ListEntries(items[1..], start + 1)
  }

  /** A PHP list: the strings under the keys 0, 1, 2, ... in order. */
  function ListValue(items: seq<string>): Value {
    Arr(ListEntries(items, 0))
  }

  /** The strings of entries whose keys count up from `start`; None when a key
      is out of place or a value is not a string. */
  function ReadEntries(entries: seq<(Key, Value)>, start: int): Option<seq<string>>
    decreases |entries|
  {
    if entries == [] then Some([])
    else if entries[0].0 != IntKey(start) || !entries[0].1.Str? then None
    else match ReadEntries(entries[1..], start + 1)
      case None => None
      case Some(rest) => Some([entries[0].1.s] + rest)
  }

  /** Reads a PHP list back; None for any other value. */
  function ListItems(v: Value): Option<seq<string>> {
    if v.Arr? then ReadEntries(v.entries, 0) else None
  }

  /** Entries written from a list read back as that list. */
  lemma {:induction false} ReadListEntries(items: seq<string>, start: int)
    ensures ReadEntries(ListEntries(items, start), start) == Some(items)
    decreases |items|
  {
    if items != [] {
      var entries := ListEntries(items, start);
      assert entries[1..] == ListEntries(items[1..], start + 1);
      ReadListEntries(items[1..], start + 1);
      assert [items[0]] + items[1..] == items;
    }
  }

  /** A stored list reads back as the list that was stored, so two lists
      stored as the same option value are the same list. */
  lemma ListRoundTrip(items: seq<string>)
    ensures ListItems(ListValue(items)) == Some(items)
  {
    ReadListEntries(items, 0);
  }

  /** The value stored under an option name; None when it is not set. */
  function Lookup(options: map<string, Value>, name: string): Option<Value> {
    if name in options then Some(options[name]) else None
  }

  /** `after` agrees with `before` on every option name outside `written`. */
  ghost predicate Untouched(before: map<string, Value>, after: map<string, Value>, written: set<string>) {
    forall k :: k !in written ==> Lookup(after, k) == Lookup(before, k)
  }

  /** Two writes in a row leave alone what neither of them writes. */
  lemma UntouchedChain(a: map<string, Value>, b: map<string, Value>, c: map<string, Value>,
                       first: set<string>, second: set<string>)
    requires Untouched(a, b, first) && Untouched(b, c, second)
    ensures Untouched(a, c, first + second)
  {
  }

  /** The options after a run of update_option() calls, in order. */
  function Write(options: map<string, Value>, writes: seq<(string, Value)>): map<string, Value>
    decreases |writes|
  {
    if writes == [] then options else Write(options[writes[0].0 := writes[0].1], writes[1..])
  }

  /** The option names a run of writes sets. */
  function WrittenNames(writes: seq<(string, Value)>): set<string> {
    set i | 0 <= i < |writes| :: writes[i].0
  }

  /** A run of writes changes no option outside the names it sets. */
  lemma {:induction false} WriteUntouched(options: map<string, Value>, writes: seq<(string, Value)>)
    ensures Untouched(options, Write(options, writes), WrittenNames(writes))
    decreases |writes|
  {
    if writes != [] {
      var first := options[writes[0].0 := writes[0].1];
      WriteUntouched(first, writes[1..]);
      assert writes[0].0 in WrittenNames(writes);
    }
  }

  /** An option ends with the value of a write that no later write to the
      same name overrides. */
  lemma {:induction false} WriteLookup(options: map<string, Value>, writes: seq<(string, Value)>, i: nat)
    requires i < |writes|
    requires forall j :: i < j < |writes| ==> writes[j].0 != writes[i].0
    ensures Lookup(Write(options, writes), writes[i].0) == Some(writes[i].1)
    decreases |writes|
  {
    var first := options[writes[0].0 := writes[0].1];
    if i == 0 {
      WriteUntouched(first, writes[1..]);
    } else {
      WriteLookup(first, writes[1..], i - 1);
    }
  }

  /** A row of the users table, apart from its login name and id:
      the e-mail address and the password it was created with. */
  datatype Account = Account(email: string, password: string)

  /** A row inserted into the posts table. */
  datatype Post = Post(
    author: nat,
    date: string,
    dateGmt: string,
    content: string,
    excerpt: string,
    title: string,
    name: string,
    modified: string,
    modifiedGmt: string,
    guid: string,
    commentCount: nat,
    toPing: string,
    pinged: string,
    contentFiltered: string)

  /** A row inserted into the terms table. */
  datatype Term = Term(name: string, slug: string, termGroup: int, termId: nat)

  /** A row inserted into the term_taxonomy table. */
  datatype TermTaxonomy = TermTaxonomy(count: nat, description: string, parent: nat, taxonomy: string, termId: nat)
}
