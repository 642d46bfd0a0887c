/**
 * The comma-separated column list of a post listing query:
 * `String.prototype.split(",")` and its inverse `Array.prototype.join(",")`.
 */
module CommaList {

  /** The pieces of `s` between commas, as JavaScript's `s.split(",")` gives them:
      never empty, no piece holds a comma, and joining them again gives back `s`. */
  function Split(s: string): (pieces: seq<string>)
    ensures |pieces| >= 1
    ensures forall i :: 0 <= i < |pieces| ==> ',' !in pieces[i]
    ensures Join(pieces) == s
    decreases |s|
  {
    if s == [] then
      [""]
    else if s[0] == ',' then
      assert s == "," + s[1..];
      [""] + Split(s[1..])
    else
      var rest := Split(s[1..]);
      assert [s[0]] + rest[0] + "," + Join(rest[1..]) == [s[0]] + (rest[0] + "," + Join(rest[1..]));
      assert s == [s[0]] + s[1..];
      [[s[0]] + rest[0]] + rest[1..]
  }

  /** The pieces written one after the other with a comma between neighbours. */
  function Join(pieces: seq<string>): string
  {
    if |pieces| == 0 then ""
    else if |pieces| == 1 then pieces[0]
    else pieces[0] + "," + Join(pieces[1..])
  }

  /** Splitting a comma-free prefix glued onto `t` extends the first piece of `t`. */
  lemma {:induction false} SplitPrefix(p: string, t: string)
    requires ',' !in p
    ensures Split(p + t) == [p + Split(t)[0]] + Split(t)[1..]
    decreases |p|
  {
    if p == [] {
      assert p + t == t;
      assert p + Split(t)[0] == Split(t)[0];
      assert Split(t) == [Split(t)[0]] + Split(t)[1..];
    } else {
      assert (p + t)[0] == p[0];
      assert (p + t)[1..] == p[1..] + t;
      SplitPrefix(p[1..], t);
      assert [p[0]] + (p[1..] + Split(t)[0]) == p + Split(t)[0];
    }
  }

  /** Joining comma-free pieces and splitting the result gives back the pieces. */
  lemma {:induction false} JoinSplit(pieces: seq<string>)
    requires |pieces| >= 1
    requires forall i :: 0 <= i < |pieces| ==> ',' !in pieces[i]
    ensures Split(Join(pieces)) == pieces
    decreases |pieces|
  {
    var p := pieces[0];
    if |pieces| == 1 {
      SplitPrefix(p, "");
      assert p + "" == p;
    } else {
      var tail := Join(pieces[1..]);
      assert Join(pieces) == p + "," + tail;
      SplitPrefix(p, "," + tail);
      assert p + "," + tail == p + ("," + tail);
      assert ("," + tail)[0] == ',' && ("," + tail)[1..] == tail;
      assert Split("," + tail) == [""] + Split(tail);
      JoinSplit(pieces[1..]);
      assert p + "" == p;
      assert pieces == [p] + pieces[1..];
    }
  }
}
