/** The per-instance tag list, the two tags that carry meaning, time as
    milliseconds, and the `Key: Value` summary sent in notifications. */
module Tags {
  import opened Basics

  datatype Tag = Tag(key: string, value: string)

  /** Written by the sweeper the first time it sees an instance running. */
  const STARTED_TIME_KEY: string := "startedTime"
  /** The auto-stop deadline; absent means no auto-stop is scheduled. */
  const SHUTDOWN_TIME_KEY: string := "shutdownTime"
  /** One hour in milliseconds. */
  const HOUR_MS: int := 3600000

  /** The boundary between integer milliseconds and the ISO-8601 text stored
      in a tag: `format` is `Date.prototype.toISOString`, `parse` is
      `new Date(text)`, with None for an invalid date. */
  datatype TimeCodec = TimeCodec(format: int -> string, parse: string -> Option<int>)

  /** `Tags.find(tag => tag.Key === key)`: the value of the first tag with that key. */
  function Lookup(ts: seq<Tag>, key: string): (r: Option<string>)
    ensures r.Some? <==> exists i :: 0 <= i < |ts| && ts[i].key == key
    ensures r.Some? ==>
      exists i :: 0 <= i < |ts| && ts[i] == Tag(key, r.value) && (forall j :: 0 <= j < i ==> ts[j].key != key)
  {
    if ts == [] then None
    else if ts[0].key == key then Some(ts[0].value)
    else Lookup(ts[1..], key)
  }

  /** Gives every tag named `key` the value `value`. */
  function Overwrite(ts: seq<Tag>, key: string, value: string): (r: seq<Tag>)
    ensures |r| == |ts|
    ensures Lookup(r, key) == if Lookup(ts, key).Some? then Some(value) else None
    ensures forall k :: k != key ==> Lookup(r, k) == Lookup(ts, k)
  {
    if ts == [] then []
    else [if ts[0].key == key then Tag(key, value) else ts[0]] + Overwrite(ts[1..], key, value)
  }

  /** CreateTags on one key: an existing tag is overwritten in place, a new
      one is added at the end. */
  function SetTag(ts: seq<Tag>, key: string, value: string): (r: seq<Tag>)
    ensures Lookup(r, key) == Some(value)
    ensures forall k :: k != key ==> Lookup(r, k) == Lookup(ts, k)
    ensures |r| == if Lookup(ts, key).Some? then |ts| else |ts| + 1
  {
    if ts == [] then [Tag(key, value)]
    else if ts[0].key == key then [Tag(key, value)] + Overwrite(ts[1..], key, value)
    else [ts[0]] + SetTag(ts[1..], key, value)
  }

  /** DeleteTags on one key: every tag with that key goes, the rest keep their order. */
  function RemoveTag(ts: seq<Tag>, key: string): (r: seq<Tag>)
    ensures Lookup(r, key) == None
    ensures forall k :: k != key ==> Lookup(r, k) == Lookup(ts, k)
    ensures |r| <= |ts|
  {
    if ts == [] then []
    else if ts[0].key == key then RemoveTag(ts[1..], key)
    else [ts[0]] + RemoveTag(ts[1..], key)
  }

  function TagLine(t: Tag): string {
    t.key + ": " + t.value
  }

  function TagLines(ts: seq<Tag>): (r: seq<string>)
    ensures |r| == |ts|
    ensures forall i :: 0 <= i < |ts| ==> r[i] == TagLine(ts[i])
  {
    if ts == [] then [] else [TagLine(ts[0])] + TagLines(ts[1..])
  }

  /** `Array.prototype.join('\n')`. */
  function JoinLines(lines: seq<string>): string {
    if lines == [] then ""
    else if |lines| == 1 then lines[0]
    else lines[0] + "\n" + JoinLines(lines[1..])
  }

  /** `Tags?.map(tag => `${tag.Key}: ${tag.Value}`).join('\n') || 'No tags'`:
      the empty join is falsy and falls back to the placeholder. */
  function TagSummary(ts: seq<Tag>): (r: string)
    ensures r != ""
    ensures ts == [] ==> r == "No tags"
  {
    var joined := JoinLines(TagLines(ts));
    if joined == "" then "No tags" else joined
  }

  /** `String.prototype.split('\n')`, the inverse of JoinLines. */
  function SplitLines(s: string): (r: seq<string>)
    ensures |r| >= 1
  {
    if s == [] then [""]
    else
      var rest := SplitLines(s[1..]);
      if s[0] == '\n' then [""] + rest else [[s[0]] + rest[0]] + rest[1..]
  }

  lemma {:induction false} JoinStartsWithFirst(lines: seq<string>)
    requires lines != []
    ensures exists tail :: JoinLines(lines) == lines[0] + tail
  {
    if |lines| == 1 {
      assert JoinLines(lines) == lines[0] + "";
    } else {
      assert JoinLines(lines) == lines[0] + ("\n" + JoinLines(lines[1..]));
    }
  }

  /** The summary is the placeholder exactly when there are no tags: every
      line of a non-empty summary holds `: `, which the placeholder does not. */
  lemma {:induction false} SummaryFallback(ts: seq<Tag>)
    ensures TagSummary(ts) == "No tags" <==> ts == []
  {
    if ts != [] {
      var lines := TagLines(ts);
      JoinStartsWithFirst(lines);
      var tail :| JoinLines(lines) == lines[0] + tail;
      var joined := JoinLines(lines);
      assert joined[|ts[0].key|] == ':';
      assert ':' in joined;
      assert ':' !in "No tags";
    }
  }

  lemma {:induction false} SplitSingle(a: string)
    requires '\n' !in a
    ensures SplitLines(a) == [a]
  {
    if a != [] {
      SplitSingle(a[1..]);
      assert [a[0]] + a[1..] == a;
    }
  }

  lemma {:induction false} SplitAfterLine(a: string, b: string)
    requires '\n' !in a
    ensures SplitLines(a + "\n" + b) == [a] + SplitLines(b)
  {
    if a == [] {
      assert a + "\n" + b == "\n" + b;
      assert ("\n" + b)[1..] == b;
    } else {
      SplitAfterLine(a[1..], b);
      assert (a + "\n" + b)[1..] == a[1..] + "\n" + b;
      assert [a[0]] + a[1..] == a;
    }
  }

  lemma {:induction false} SplitJoin(lines: seq<string>)
    requires lines != []
    requires forall i :: 0 <= i < |lines| ==> '\n' !in lines[i]
    ensures SplitLines(JoinLines(lines)) == lines
  {
    if |lines| == 1 {
      SplitSingle(lines[0]);
    } else {
      SplitJoin(lines[1..]);
      SplitAfterLine(lines[0], JoinLines(lines[1..]));
    }
  }

  /** When no key or value holds a line break, splitting a summary of a
      non-empty tag list at line breaks gives back one `Key: Value` line per
      tag, in the tag list's order. */
  lemma {:induction false} SummaryLines(ts: seq<Tag>)
    requires ts != []
    requires forall i :: 0 <= i < |ts| ==> '\n' !in ts[i].key && '\n' !in ts[i].value
    ensures SplitLines(TagSummary(ts)) == TagLines(ts)
  {
    SummaryFallback(ts);
    var lines := TagLines(ts);
    forall i | 0 <= i < |lines|
      ensures '\n' !in lines[i]
    {
      assert lines[i] == ts[i].key + ": " + ts[i].value;
    }
    SplitJoin(lines);
  }
}
