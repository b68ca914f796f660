/** Paths are built by plain string interpolation, without escaping. This module
    splits a path at '/' so that what an identifier turns into can be stated. */
module Paths {

  /** The '/'-separated segments of s ("a//b" gives ["a", "", "b"]). */
  function Segments(s: string): (r: seq<string>)
    ensures |r| >= 1
  {
    if s == [] then [""]
    else
      var rest := Segments(s[1..]);
      if s[0] == '/' then [""] + rest
      else [[s[0]] + rest[0]] + rest[1..]
  }

  /** parts joined with '/'. */
  function Join(parts: seq<string>): string
    requires |parts| >= 1
  {
    if |parts| == 1 then parts[0] else parts[0] + "/" + Join(parts[1..])
  }

  predicate SlashFree(s: string) {
    forall i :: 0 <= i < |s| ==> s[i] != '/'
  }

  lemma {:induction false} SegmentsOfSlashFree(x: string)
    requires SlashFree(x)
    ensures Segments(x) == [x]
  {
    if x != [] {
      SegmentsOfSlashFree(x[1..]);
      assert [x[0]] + x[1..] == x;
    }
  }

  lemma {:induction false} SegmentsCons(x: string, rest: string)
    requires SlashFree(x)
    ensures Segments(x + "/" + rest) == [x] + Segments(rest)
  {
    if x == [] {
      assert x + "/" + rest == ['/'] + rest;
      assert (['/'] + rest)[1..] == rest;
    } else {
      var s := x + "/" + rest;
      assert s[1..] == x[1..] + "/" + rest;
      SegmentsCons(x[1..], rest);
      assert [x[0]] + x[1..] == x;
    }
  }

  /** Joining slash-free parts and splitting again gives the parts back. */
  lemma {:induction false} SegmentsOfJoin(parts: seq<string>)
    requires |parts| >= 1
    requires forall i :: 0 <= i < |parts| ==> SlashFree(parts[i])
    ensures Segments(Join(parts)) == parts
  {
    if |parts| == 1 {
      SegmentsOfSlashFree(parts[0]);
    } else {
      SegmentsCons(parts[0], Join(parts[1..]));
      SegmentsOfJoin(parts[1..]);
      assert [parts[0]] + parts[1..] == parts;
    }
  }
}
