/** Slash-separated paths. */
module Paths {
  /** The segments of a path, as splitting it at slashes gives them. */
  function Segments(path: string): (r: seq<string>)
    ensures |r| > 0
  {
    if path == [] then [""]
    else
      var rest := Segments(path[1..]);
      if path[0] == '/' then [""] + rest else [[path[0]] + rest[0]] + rest[1..]
  }

  predicate EndsWith(s: string, suffix: string) {
    |suffix| <= |s| && s[|s| - |suffix|..] == suffix
  }

  /** A path below `base` has the segments of both. */
  lemma {:induction false} SegmentsBelow(base: string, name: string)
    ensures Segments(base + "/" + name) == Segments(base) + Segments(name)
    decreases |base|
  {
    var path := base + "/" + name;
    if base == [] {
      assert path[0] == '/' && path[1..] == name;
    } else {
      assert path[1..] == base[1..] + "/" + name && path[0] == base[0];
      SegmentsBelow(base[1..], name);
    }
  }

  /** Parts put together with slashes between them. */
  function Joined(parts: seq<string>): string
    requires |parts| > 0
  {
    if |parts| == 1 then parts[0] else parts[0] + "/" + Joined(parts[1..])
  }

  /** Splitting takes a path apart at its slashes: the segments have none, and put together they are the path. */
  lemma {:induction false} JoinedSegments(path: string)
    ensures Joined(Segments(path)) == path
    ensures forall part :: part in Segments(path) ==> '/' !in part
  {
    if path != [] {
      JoinedSegments(path[1..]);
      var rest := Segments(path[1..]);
      assert path == [path[0]] + path[1..];
      if path[0] == '/' {
        assert ([""] + rest)[1..] == rest;
      } else {
        assert ([[path[0]] + rest[0]] + rest[1..])[1..] == rest[1..];
      }
    }
  }

  lemma {:induction false} SegmentsJoined(parts: seq<string>)
    requires |parts| > 0 && forall part :: part in parts ==> '/' !in part
    ensures Segments(Joined(parts)) == parts
  {
    NoSlash(parts[0]);
    if |parts| > 1 {
      SegmentsJoined(parts[1..]);
      SegmentsBelow(parts[0], Joined(parts[1..]));
      assert parts == [parts[0]] + parts[1..];
    } else {
      assert parts == [parts[0]];
    }
  }

  lemma {:induction false} NoSlash(part: string)
    requires '/' !in part
    ensures Segments(part) == [part]
  {
    if part != [] {
      NoSlash(part[1..]);
      assert part == [part[0]] + part[1..];
    }
  }

  lemma {:induction false} CharsOfJoined(parts: seq<string>)
    requires |parts| > 0
    ensures forall c: char :: c in Joined(parts) ==> c == '/' || exists k :: 0 <= k < |parts| && c in parts[k]
    ensures forall k, c: char :: 0 <= k < |parts| && c in parts[k] ==> c in Joined(parts)
    ensures Joined(parts) == "" ==> parts == [""]
  {
    if |parts| > 1 {
      var rest := parts[1..];
      CharsOfJoined(rest);
      forall c: char | c in Joined(parts) ensures c == '/' || exists k :: 0 <= k < |parts| && c in parts[k] {
        if c in Joined(rest) && c != '/' {
          var k :| 0 <= k < |rest| && c in rest[k];
          assert c in parts[k + 1];
        }
      }
      forall k, c: char | 0 <= k < |parts| && c in parts[k] ensures c in Joined(parts) {
        if k > 0 { assert c in rest[k - 1]; }
      }
    }
  }
}
