/** Where a status poll goes: `Url::join` of a relative reference to a base whose path is `/`. */
module Endpoint {
  import opened Text
  import opened OperationIds
  import opened Machine

  /** The resolved path, segment by segment, and whatever query and fragment follow it, as written.  Characters
      the URL syntax has no use for are percent-encoded on the way; here they stand as they are. */
  datatype Endpoint = Endpoint(path: seq<string>, tail: string)

  // ---------------------------------------------------------------- resolving a reference

  predicate IsSlash(c: char) {
    c == '/' || c == '\\'
  }

  predicate EndsPath(c: char) {
    c == '?' || c == '#'
  }

  /** The length of the part before the query and the fragment. */
  function PathLength(reference: string): (n: nat)
    ensures n <= |reference| && forall i :: 0 <= i < n ==> !EndsPath(reference[i])
    ensures n < |reference| ==> EndsPath(reference[n])
  {
    if reference == "" || EndsPath(reference[0]) then 0 else 1 + PathLength(reference[1..])
  }

  /** The pieces between slashes of either kind, at least one. */
  function Pieces(path: string): (pieces: seq<string>)
    ensures pieces != []
    ensures forall p, c :: p in pieces && c in p ==> c in path && !IsSlash(c)
  {
    if path == "" then [""]
    else
      var rest := Pieces(path[1..]);
      if IsSlash(path[0]) then [""] + rest else [[path[0]] + rest[0]] + rest[1..]
  }

  predicate IsUp(piece: string) {
    LowerAscii(piece) in {"..", ".%2e", "%2e.", "%2e%2e"}
  }

  predicate IsHere(piece: string) {
    LowerAscii(piece) in {".", "%2e"}
  }

  /** What a piece does to the path being built: leave its last segment, or add one. */
  datatype Move = Up | Name(name: string)

  /** A dot piece at the end leaves an empty last segment. */
  function Moves(pieces: seq<string>): (moves: seq<Move>) {
    if pieces == [] then []
    else
      var first, last := pieces[0], |pieces| == 1;
      (if IsUp(first) then [Up] + (if last then [Name("")] else [])
       else if IsHere(first) then (if last then [Name("")] else [])
       else [Name(first)])
      + Moves(pieces[1..])
  }

  /** Build the path, one move after the other; there is nothing to leave above the root. */
  function Walk(path: seq<string>, moves: seq<Move>): seq<string>
    decreases |moves|
  {
    if moves == [] then path
    else
      match moves[0]
      case Up => Walk(if path == [] then [] else path[..|path| - 1], moves[1..])
      case Name(name) => Walk(path + [name], moves[1..])
  }

  /** The URL of a reference that begins with a letter and has a slash before any colon, and that has no control
      character and no space at its end; the check on identifiers sees to the latter. */
  function Resolve(reference: string): Endpoint {
    var n := PathLength(reference);
    Endpoint(Walk([], Moves(Pieces(reference[..n]))), reference[n..])
  }

  // ---------------------------------------------------------------- what an identifier can do

  const STATUS := ["v1", "operations"]

  /** Inside `v1/operations/`. */
  predicate Below(endpoint: Endpoint) {
    STATUS < endpoint.path
  }

  /** The resource of this very identifier. */
  function Own(id: string): Endpoint {
    Endpoint(STATUS + [id], "")
  }

  /** No slash, no query, no fragment, and no dot segment. */
  predicate Plain(id: string) {
    && (forall c :: c in id ==> c !in {'/', '\\', '?', '#'})
    && LowerAscii(id) !in {".", "%2e", "..", ".%2e", "%2e.", "%2e%2e"}
  }

  /** The moves in normal form: first so many segments up, then these names. */
  function Net(moves: seq<Move>): (nat, seq<string>) {
    if moves == [] then (0, [])
    else
      var (ups, names) := Net(moves[1..]);
      match moves[0]
      case Up => (ups + 1, names)
      case Name(name) => if ups > 0 then (ups - 1, names) else (0, [name] + names)
  }

  function Drop(path: seq<string>, ups: nat): seq<string> {
    if ups >= |path| then [] else path[..|path| - ups]
  }

  lemma {:induction false} WalkNet(path: seq<string>, moves: seq<Move>)
    ensures var (ups, names) := Net(moves); Walk(path, moves) == Drop(path, ups) + names
    decreases |moves|
  {
    if moves != [] {
      var (ups, names) := Net(moves[1..]);
      match moves[0]
      case Up => WalkNet(if path == [] then [] else path[..|path| - 1], moves[1..]);
      case Name(name) =>
        WalkNet(path + [name], moves[1..]);
        if ups == 0 { assert path + [name] + names == path + ([name] + names); }
    }
  }

  /** The moves an identifier makes once the reference has come to `v1/operations/`. */
  function MovesOf(id: string): seq<Move> {
    Moves(Pieces(id[..PathLength(id)]))
  }

  lemma {:induction false} PathLengthAppend(a: string, b: string)
    requires forall c :: c in a ==> !EndsPath(c)
    ensures PathLength(a + b) == |a| + PathLength(b)
  {
    if a == "" {
      assert a + b == b;
    } else {
      assert a[0] in a && (a + b)[1..] == a[1..] + b;
      PathLengthAppend(a[1..], b);
    }
  }

  lemma {:induction false} PiecesAppend(a: string, b: string)
    requires forall c :: c in a ==> !IsSlash(c)
    ensures Pieces(a + "/" + b) == [a] + Pieces(b)
  {
    var all := a + "/" + b;
    if a == "" {
      assert all[1..] == b;
    } else {
      assert a[0] in a && all[0] == a[0] && all[1..] == a[1..] + "/" + b;
      PiecesAppend(a[1..], b);
      assert ([a[1..]] + Pieces(b))[1..] == Pieces(b) && [a[0]] + a[1..] == a;
    }
  }

  lemma StatusShape(path: string)
    ensures StatusPath(path) == "v1" + "/" + ("operations" + "/" + path)
  {
    assert "v1/operations/" == "v1" + "/" + ("operations" + "/");
  }

  lemma PiecesTwice(a: string, b: string, path: string)
    requires (forall c :: c in a ==> !IsSlash(c)) && (forall c :: c in b ==> !IsSlash(c))
    ensures Pieces(a + "/" + (b + "/" + path)) == [a, b] + Pieces(path)
  {
    PiecesAppend(a, b + "/" + path);
    PiecesAppend(b, path);
    assert [a] + ([b] + Pieces(path)) == [a, b] + Pieces(path);
  }

  lemma StatusPieces(path: string)
    ensures Pieces(StatusPath(path)) == ["v1", "operations"] + Pieces(path)
  {
    StatusShape(path);
    PiecesTwice("v1", "operations", path);
  }

  lemma StatusLength(id: string)
    ensures PathLength(StatusPath(id)) == 14 + PathLength(id)
  {
    PathLengthAppend("v1/operations/", id);
  }

  lemma ResolveCut(reference: string, path: string, tail: string)
    requires reference == path + tail && PathLength(reference) == |path|
    ensures Resolve(reference) == Endpoint(Walk([], Moves(Pieces(path))), tail)
  {
    assert reference[..|path|] == path && reference[|path|..] == tail;
  }

  lemma StatusCut(id: string, n: nat)
    requires n <= |id|
    ensures |StatusPath(id[..n])| == 14 + n && StatusPath(id) == StatusPath(id[..n]) + id[n..]
  {
  }

  /** The reference first goes down to `v1/operations`, then makes the identifier's own moves. */
  lemma StatusWalk(id: string)
    ensures Resolve(StatusPath(id)) == Endpoint(Walk(STATUS, MovesOf(id)), id[PathLength(id)..])
  {
    var n := PathLength(id);
    StatusLength(id);
    StatusCut(id, n);
    ResolveCut(StatusPath(id), StatusPath(id[..n]), id[n..]);
    StatusPieces(id[..n]);
    DownToStatus(Pieces(id[..n]));
  }

  lemma DownToStatus(pieces: seq<string>)
    requires pieces != []
    ensures Walk([], Moves(["v1", "operations"] + pieces)) == Walk(STATUS, Moves(pieces))
  {
    var all := ["v1", "operations"] + pieces;
    assert |LowerAscii("v1")| == 2 && LowerAscii("v1")[0] == 'v';
    assert |LowerAscii("operations")| == 10 && LowerAscii("operations")[0] == 'o';
    assert all[1..] == ["operations"] + pieces && all[1..][1..] == pieces;
    var moves := Moves(pieces);
    assert Moves(all[1..]) == [Name("operations")] + moves;
    assert Moves(all) == [Name("v1")] + ([Name("operations")] + moves);
    assert Moves(all)[1..] == [Name("operations")] + moves && Moves(all)[1..][1..] == moves;
    assert [] + ["v1"] + ["operations"] == STATUS;
  }

  lemma NetOne(name: string)
    ensures Net([Name(name)]) == (0, [name])
  {
    var none: seq<Move> := [];
    assert [Name(name)][1..] == none && Net(none) == (0, []) && [name] + [] == [name];
  }

  /** The last move adds a segment. */
  lemma {:induction false} MovesEnd(pieces: seq<string>)
    requires pieces != []
    ensures Net(Moves(pieces)).1 != []
  {
    var first, rest := pieces[0], Moves(pieces[1..]);
    if |pieces| == 1 {
      NetOne("");
      NetOne(first);
      assert rest == [] && [Up] + [Name("")] + [] == [Up, Name("")] && [Up, Name("")][1..] == [Name("")];
    } else {
      MovesEnd(pieces[1..]);
      assert ([Up] + rest)[1..] == rest && ([Name(first)] + rest)[1..] == rest && [] + rest == rest;
    }
  }

  /** Which identifiers stay inside `v1/operations/`: those that never leave it, and those that come back by
      spelling out its segments again. */
  lemma StaysBelowExactly(id: string)
    ensures Below(Resolve(StatusPath(id)))
       <==> match Net(MovesOf(id))
            case (0, names) => true
            case (1, names) => |names| >= 2 && names[0] == "operations"
            case (_, names) => |names| >= 3 && names[0] == "v1" && names[1] == "operations"
  {
    StatusWalk(id);
    WalkNet(STATUS, MovesOf(id));
    MovesEnd(Pieces(id[..PathLength(id)]));
    var (ups, names) := Net(MovesOf(id));
    var path := Drop(STATUS, ups) + names;
    assert STATUS < path <==> |path| > 2 && path[0] == "v1" && path[1] == "operations" by {
      if |path| > 2 && path[0] == "v1" && path[1] == "operations" { assert path[..2] == STATUS; }
    }
  }

  /** Which identifiers are polled at their own resource, with nothing after it: exactly the plain ones. */
  lemma OwnExactly(id: string)
    ensures Resolve(StatusPath(id)) == Own(id) <==> Plain(id)
  {
    StatusWalk(id);
    if Plain(id) {
      PlainOwn(id);
    } else if Resolve(StatusPath(id)) == Own(id) {
      assert id[PathLength(id)..] == "" && id[..|id|] == id;
      OwnPlain(id);
    }
  }

  lemma PlainOwn(id: string)
    requires Plain(id)
    ensures PathLength(id) == |id| && Walk(STATUS, MovesOf(id)) == STATUS + [id]
  {
    PlainParts(id);
    PathLengthAppend(id, "");
    assert id + "" == id && id[..|id|] == id;
    OnePiece(id);
    OneMove(id);
    WalkNet(STATUS, MovesOf(id));
  }

  lemma {:induction false} OnePiece(s: string)
    requires forall c :: c in s ==> !IsSlash(c)
    ensures Pieces(s) == [s]
  {
    if s != "" {
      assert s[0] in s;
      OnePiece(s[1..]);
      assert [s[0]] + s[1..] == s;
    }
  }

  /** No name a walk adds contains a slash, so the last segment is the identifier only if that has none. */
  lemma OwnPlain(id: string)
    requires PathLength(id) == |id| && Walk(STATUS, Moves(Pieces(id))) == STATUS + [id]
    ensures Plain(id)
  {
    NoSlash(id);
    OnePiece(id);
    SoleMove(id);
    NoEnd(id);
    PlainParts(id);
  }

  lemma NoEnd(id: string)
    requires PathLength(id) == |id|
    ensures forall c :: c in id ==> !EndsPath(c)
  {
  }

  /** A plain identifier is one piece that moves nowhere. */
  lemma PlainParts(id: string)
    ensures Plain(id) <==> (forall c :: c in id ==> !IsSlash(c) && !EndsPath(c)) && !IsUp(id) && !IsHere(id)
  {
  }

  lemma SoleMove(id: string)
    requires Walk(STATUS, Moves([id])) == STATUS + [id]
    ensures !IsUp(id) && !IsHere(id)
  {
    OneMove(id);
    WalkNet(STATUS, Moves([id]));
    if IsUp(id) || IsHere(id) { LastOf(Drop(STATUS, Net(Moves([id])).0), [""], STATUS, id); }
  }

  lemma NoSlash(id: string)
    requires Walk(STATUS, Moves(Pieces(id))) == STATUS + [id]
    ensures forall c :: c in id ==> !IsSlash(c)
  {
    var pieces := Pieces(id);
    WalkNet(STATUS, Moves(pieces));
    MovesEnd(pieces);
    NamesFromPieces(pieces);
    var (ups, names) := Net(Moves(pieces));
    LastOf(Drop(STATUS, ups), names, STATUS, id);
  }

  lemma LastOf(a: seq<string>, b: seq<string>, c: seq<string>, d: string)
    requires a + b == c + [d] && b != []
    ensures d in b
  {
    assert (a + b)[|a + b| - 1] == b[|b| - 1] && (c + [d])[|c|] == d;
  }

  /** What a single piece does. */
  lemma OneMove(id: string)
    ensures Net(Moves([id])) == if IsUp(id) then (1, [""]) else if IsHere(id) then (0, [""]) else (0, [id])
  {
    var none: seq<Move> := [];
    assert [id][1..] == [] && Moves([]) == none;
    NetOne("");
    NetOne(id);
    assert [Up] + [Name("")] + none == [Up, Name("")] && [Up, Name("")][1..] == [Name("")];
    assert [Name("")] + none == [Name("")] && [Name(id)] + none == [Name(id)];
  }

  ghost predicate Slashless(names: seq<string>) {
    forall n, c :: n in names && c in n ==> !IsSlash(c)
  }

  lemma {:induction false} NamesFromPieces(pieces: seq<string>)
    requires Slashless(pieces)
    ensures Slashless(Net(Moves(pieces)).1)
  {
    if pieces != [] {
      var first, rest := pieces[0], Moves(pieces[1..]);
      NamesFromPieces(pieces[1..]);
      if IsUp(first) {
        NetCons(Name(""), rest);
        NetCons(Up, if |pieces| == 1 then [Name("")] + rest else rest);
        assert [Up] + [Name("")] + rest == [Up] + ([Name("")] + rest) && [Up] + [] + rest == [Up] + rest;
      } else {
        NetCons(Name(if IsHere(first) then "" else first), rest);
        assert [] + rest == rest;
      }
    }
  }

  lemma NetCons(move: Move, rest: seq<Move>)
    requires Slashless(Net(rest).1) && (move.Name? ==> Slashless([move.name]))
    ensures Slashless(Net([move] + rest).1)
  {
    assert ([move] + rest)[1..] == rest;
    assert move.Name? ==> move.name in [move.name];
  }

  /** A minted identifier is polled at its own resource. */
  lemma MintedOwn(now: nat, sequence: nat)
    ensures var id := OperationId(now, sequence); Plain(id) && Resolve(StatusPath(id)) == Own(id)
  {
    var id := OperationId(now, sequence);
    DecimalRoundTrip(now);
    DecimalRoundTrip(sequence);
    forall c | c in id ensures IsIdChar(c) {
      assert c in "web-" || c in Decimal(now) || c in "-" || c in Decimal(sequence);
    }
    assert |LowerAscii(id)| == |id| && LowerAscii(id)[0] == 'w';
    OwnExactly(id);
  }

  /** The check of the route alone does not see to that. */
  lemma DotsLeave()
    ensures ValidIdentifier("..", 128)
    ensures !Below(Resolve(StatusPath("..")))
  {
    AsciiByteLength("..");
    TrimNoWhitespace("..");
    OnePiece("..");
    OneMove("..");
    assert LowerAscii("..") == ".." && PathLength("..") == 2 && ".."[..2] == "..";
    StaysBelowExactly("..");
  }

  /** A single dot stays inside `v1/operations/`. */
  lemma DotStays()
    ensures Resolve(StatusPath(".")).path == ["v1", "operations", ""]
  {
    assert LowerAscii(".") == "." && PathLength(".") == 1 && "."[..1] == ".";
    OnePiece(".");
    OneMove(".");
    StatusWalk(".");
    WalkNet(STATUS, Moves(["."]));
    assert Drop(STATUS, 0) == STATUS && STATUS + [""] == ["v1", "operations", ""];
  }

  /** A query stays behind the path. */
  lemma QueryStays()
    ensures Resolve(StatusPath("x?y")) == Endpoint(["v1", "operations", "x"], "?y")
  {
    var id := "x?y";
    assert id[1] == '?' && id[1..] == "?y" && PathLength(id[1..]) == 0 && PathLength(id) == 1 && id[..1] == "x";
    OnePiece("x");
    OneMove("x");
    assert |LowerAscii("x")| == 1 && LowerAscii("x")[0] == 'x';
    StatusWalk(id);
    WalkNet(STATUS, MovesOf(id));
  }
}
