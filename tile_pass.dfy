/**
 * What one draw pass puts in the context's log. Each tile is
 * save, translate to its anchor, rotate, draw, restore; the pass sets the
 * shared state once around the tiles: font and fill colour before a text
 * pass (and a `beginPath` after it), global alpha before an image pass and
 * back to 1 after it.
 */
module TilePass {
  import opened Wrappers
  import opened Canvas2D
  import opened TileGrid

  /** The watermark's content: a text string or an image element. */
  datatype Content = Text(text: string) | Image(image: ImageId)

  /** What a tile draws at its local origin. */
  datatype Item = TextItem(text: string) | ImageItem(image: ImageId, width: nat, height: nat)

  /** Everything a draw pass reads from the resolved options. */
  datatype DrawParams = DrawParams(
    content: Content, rotate: int, font: string, color: string,
    width: nat, height: nat, xGap: nat, yGap: nat,
    imgWidth: nat, imgHeight: nat, opacity: Option<real>)
  {
    predicate HasGaps()
    {
      xGap > 0 && yGap > 0
    }
  }

  /** `imgInfo.opacity ?? 1`. */
  function Alpha(opacity: Option<real>): real
  {
    opacity.GetOr(1.0)
  }

  /** The call that draws `item` with state `at`. */
  function ItemCmd(item: Item, at: DrawState): Cmd
  {
    match item
    case TextItem(t) => FillText(t, 0, 0, at)
    case ImageItem(id, w, h) => DrawImage(id, 0, 0, w, h, at)
  }

  /** Drawing an item puts pixels on the canvas and leaves state and stack alone. */
  lemma ItemCmdStep(c: Config, item: Item, at: DrawState)
    ensures ItemCmd(item, at).IsDraw() && Step(c, ItemCmd(item, at)) == c
  {
    match item
    case TextItem(_) =>
    case ImageItem(_, _, _) =>
  }

  /** The state a tile anchored at p is drawn with, when the pass state is s. */
  function TileState(s: DrawState, p: Point, rotate: int): DrawState
  {
    s.(transform := s.transform + [Translate(p.x, p.y), Rotate(rotate)])
  }

  /** The calls of one tile. */
  function TileLog(s: DrawState, p: Point, rotate: int, item: Item): seq<Cmd>
  {
    [Save, Transform(Translate(p.x, p.y)), Transform(Rotate(rotate)), ItemCmd(item, TileState(s, p, rotate)), Restore]
  }

  /** The calls of the tiles anchored at ps, in order. */
  function TilesLog(s: DrawState, ps: seq<Point>, rotate: int, item: Item): seq<Cmd>
    decreases |ps|
  {
    if ps == [] then [] else TilesLog(s, ps[..|ps| - 1], rotate, item) + TileLog(s, ps[|ps| - 1], rotate, item)
  }

  /** The anchors a pass visits. */
  function PassAnchors(p: DrawParams): seq<Point>
    requires p.HasGaps()
  {
    Anchors(p.width, p.height, p.xGap, p.yGap)
  }

  /** What each tile of the pass draws. */
  function PassItem(p: DrawParams): Item
  {
    match p.content
    case Text(t) => TextItem(t)
    case Image(id) => ImageItem(id, p.imgWidth, p.imgHeight)
  }

  /** The state in force while the tiles of a pass are drawn. */
  function PassState(s: DrawState, p: DrawParams): DrawState
  {
    match p.content
    case Text(_) => s.(font := p.font, fillStyle := p.color)
    case Image(_) => s.(globalAlpha := Alpha(p.opacity))
  }

  /** The state a pass leaves behind. */
  function EndState(s: DrawState, p: DrawParams): DrawState
  {
    match p.content
    case Text(_) => s.(font := p.font, fillStyle := p.color)
    case Image(_) => s.(globalAlpha := 1.0)
  }

  /** The calls before the tiles. */
  function Lead(p: DrawParams): seq<Cmd>
  {
    match p.content
    case Text(_) => [SetFont(p.font), SetFillStyle(p.color)]
    case Image(_) => [SetGlobalAlpha(Alpha(p.opacity))]
  }

  /** The calls after the tiles. */
  function Tail(p: DrawParams): seq<Cmd>
  {
    match p.content
    case Text(_) => [BeginPath]
    case Image(_) => [SetGlobalAlpha(1.0)]
  }

  /** The whole log of `draw()` from state s: the text pass or the image pass, chosen by the content. */
  function DrawLog(s: DrawState, p: DrawParams): seq<Cmd>
    requires p.HasGaps()
  {
    Lead(p) + TilesLog(PassState(s, p), PassAnchors(p), p.rotate, PassItem(p)) + Tail(p)
  }

  /** Appending one anchor appends that tile's calls. */
  lemma TilesLogSnoc(s: DrawState, ps: seq<Point>, q: Point, rotate: int, item: Item)
    ensures TilesLog(s, ps + [q], rotate, item) == TilesLog(s, ps, rotate, item) + TileLog(s, q, rotate, item)
  {
    assert (ps + [q])[..|ps|] == ps;
  }

  /** The calls of two runs of anchors, one after the other, are the two runs' calls concatenated. */
  lemma {:induction false} TilesLogAppend(s: DrawState, ps: seq<Point>, qs: seq<Point>, rotate: int, item: Item)
    ensures TilesLog(s, ps + qs, rotate, item) == TilesLog(s, ps, rotate, item) + TilesLog(s, qs, rotate, item)
    decreases |qs|
  {
    if qs == [] {
      assert ps + qs == ps;
    } else {
      var init := qs[..|qs| - 1];
      var q := qs[|qs| - 1];
      assert ps + qs == (ps + init) + [q];
      assert qs == init + [q];
      TilesLogSnoc(s, ps + init, q, rotate, item);
      TilesLogSnoc(s, init, q, rotate, item);
      TilesLogAppend(s, ps, init, rotate, item);
    }
  }

  /** One step of a draw pass's inner loop: row k of column i comes after rows 0 .. k - 1. */
  lemma ColumnSnoc(i: nat, k: nat, xGap: nat, yGap: nat)
    ensures Column(i, k + 1, xGap, yGap) == Column(i, k, xGap, yGap) + [Point(i * xGap, k * yGap)]
  {
  }

  /** A log that grew by a and then by b grew by c = a + b. */
  lemma LogGrows(log: seq<Cmd>, a: seq<Cmd>, b: seq<Cmd>, c: seq<Cmd>)
    requires c == a + b
    ensures (log + a) + b == log + c
  {
  }

  /** What a log gained past its old length is exactly what was appended. */
  lemma LogSuffix(log: seq<Cmd>, a: seq<Cmd>)
    ensures (log + a)[|log|..] == a
  {
  }

  /** One step of a draw pass's outer loop: column i's tiles come after those of columns 0 .. i - 1. */
  lemma GridSnoc(s: DrawState, i: nat, rows: nat, xGap: nat, yGap: nat, rotate: int, item: Item)
    ensures TilesLog(s, Grid(i + 1, rows, xGap, yGap), rotate, item)
         == TilesLog(s, Grid(i, rows, xGap, yGap), rotate, item) + TilesLog(s, Column(i, rows, xGap, yGap), rotate, item)
  {
    TilesLogAppend(s, Grid(i, rows, xGap, yGap), Column(i, rows, xGap, yGap), rotate, item);
  }

  /** One step of a draw pass's inner loop: row k's tile comes after those of rows 0 .. k - 1. */
  lemma ColumnSnocLog(s: DrawState, i: nat, k: nat, xGap: nat, yGap: nat, rotate: int, item: Item)
    ensures TilesLog(s, Column(i, k + 1, xGap, yGap), rotate, item)
         == TilesLog(s, Column(i, k, xGap, yGap), rotate, item) + TileLog(s, Point(i * xGap, k * yGap), rotate, item)
  {
    ColumnSnoc(i, k, xGap, yGap);
    TilesLogSnoc(s, Column(i, k, xGap, yGap), Point(i * xGap, k * yGap), rotate, item);
  }

  /** A pass over n anchors logs 5n calls, and the j-th five are exactly the j-th anchor's tile. */
  lemma {:induction false} TilesLogAt(s: DrawState, ps: seq<Point>, rotate: int, item: Item, j: nat)
    requires j < |ps|
    ensures |TilesLog(s, ps, rotate, item)| == 5 * |ps|
    ensures TilesLog(s, ps, rotate, item)[5 * j .. 5 * j + 5] == TileLog(s, ps[j], rotate, item)
    decreases |ps|
  {
    var init := ps[..|ps| - 1];
    var before := TilesLog(s, init, rotate, item);
    var last := TileLog(s, ps[|ps| - 1], rotate, item);
    if j < |ps| - 1 {
      TilesLogAt(s, init, rotate, item, j);
      assert (before + last)[5 * j .. 5 * j + 5] == before[5 * j .. 5 * j + 5];
    } else if init == [] {
      assert before == [];
    } else {
      TilesLogAt(s, init, rotate, item, 0);
      assert (before + last)[5 * j .. 5 * j + 5] == last;
    }
  }

  /**
   * One tile, replayed from any configuration whose state is the pass state:
   * its item is drawn one save level deeper with the pass state plus exactly
   * its own translation and rotation, and afterwards state and stack are as before.
   */
  lemma TileReplay(c: Config, q: Point, rotate: int, item: Item)
    ensures Run(c, TileLog(c.state, q, rotate, item)[..3]) == Config(TileState(c.state, q, rotate), c.stack + [c.state])
    ensures Run(c, TileLog(c.state, q, rotate, item)) == c
  {
    var t := TileLog(c.state, q, rotate, item);
    var pushed := c.stack + [c.state];
    var moved := c.state.(transform := c.state.transform + [Translate(q.x, q.y)]);
    assert t[0] == Save && t[1] == Transform(Translate(q.x, q.y)) && t[2] == Transform(Rotate(rotate)) && t[4] == Restore;
    var c1 := Step(c, t[0]);
    assert c1 == Config(c.state, pushed);
    var c2 := Step(c1, t[1]);
    assert c2 == Config(moved, pushed);
    var c3 := Step(c2, t[2]);
    assert c3 == Config(moved.(transform := moved.transform + [Rotate(rotate)]), pushed);
    assert moved.transform + [Rotate(rotate)] == c.state.transform + [Translate(q.x, q.y), Rotate(rotate)];
    assert c3 == Config(TileState(c.state, q, rotate), pushed);
    var c4 := Step(c3, t[3]);
    assert t[3] == ItemCmd(item, TileState(c.state, q, rotate));
    ItemCmdStep(c3, item, TileState(c.state, q, rotate));
    assert c4 == c3;
    assert pushed[|pushed| - 1] == c.state && pushed[..|pushed| - 1] == c.stack;
    assert Step(c4, t[4]) == c;
    RunAt(c, t, 0);
    RunAt(c1, t, 1);
    RunAt(c2, t, 2);
    RunAt(c3, t, 3);
    RunAt(c4, t, 4);
    assert t[0..] == t && t[5..] == [];
    var u := t[..3];
    RunAt(c, u, 0);
    RunAt(c1, u, 1);
    RunAt(c2, u, 2);
    assert u[0..] == u && u[3..] == [];
  }

  /** A run of tiles leaves the state and the save stack exactly as it found them. */
  lemma {:induction false} TilesReplay(c: Config, ps: seq<Point>, rotate: int, item: Item)
    ensures Run(c, TilesLog(c.state, ps, rotate, item)) == c
    decreases |ps|
  {
    if ps != [] {
      var init := ps[..|ps| - 1];
      TilesReplay(c, init, rotate, item);
      RunAppend(c, TilesLog(c.state, init, rotate, item), TileLog(c.state, ps[|ps| - 1], rotate, item));
      TileReplay(c, ps[|ps| - 1], rotate, item);
    }
  }

  /** Calls of kind k that one tile makes. */
  function PerTile(item: Item, k: Kind): nat
  {
    if k == SaveKind || k == RestoreKind then 1
    else if k == TransformKind then 2
    else if k == TextKind then (if item.TextItem? then 1 else 0)
    else if k == ImageKind then (if item.ImageItem? then 1 else 0)
    else 0
  }

  lemma OneTileCount(s: DrawState, q: Point, rotate: int, item: Item, k: Kind)
    ensures Count(TileLog(s, q, rotate, item), k) == PerTile(item, k)
  {
    var t := TileLog(s, q, rotate, item);
    CountAt(t, 0, k);
    CountAt(t, 1, k);
    CountAt(t, 2, k);
    CountAt(t, 3, k);
    CountAt(t, 4, k);
    assert t[0..] == t && t[5..] == [];
  }

  /** n tiles make n saves, n restores, 2n transforms, n draws of their own kind and nothing else. */
  lemma {:induction false} TilesCount(s: DrawState, ps: seq<Point>, rotate: int, item: Item, k: Kind)
    ensures Count(TilesLog(s, ps, rotate, item), k) == |ps| * PerTile(item, k)
    decreases |ps|
  {
    if ps != [] {
      var init := ps[..|ps| - 1];
      TilesCount(s, init, rotate, item, k);
      CountAppend(TilesLog(s, init, rotate, item), TileLog(s, ps[|ps| - 1], rotate, item), k);
      OneTileCount(s, ps[|ps| - 1], rotate, item, k);
      MulSucc(|init|, PerTile(item, k));
    }
  }

  /** Every drawing call among the tiles uses the pass's font, fill style and alpha, and the pass transform plus two steps. */
  lemma {:induction false} TilesDrawWith(s: DrawState, ps: seq<Point>, rotate: int, item: Item)
    ensures forall c :: c in TilesLog(s, ps, rotate, item) && c.IsDraw() ==>
      c.at.font == s.font && c.at.fillStyle == s.fillStyle && c.at.globalAlpha == s.globalAlpha &&
      |c.at.transform| == |s.transform| + 2 && c.at.transform[..|s.transform|] == s.transform
    decreases |ps|
  {
    if ps != [] {
      TilesDrawWith(s, ps[..|ps| - 1], rotate, item);
      var q := ps[|ps| - 1];
      assert TileState(s, q, rotate).transform[..|s.transform|] == s.transform;
    }
  }

  /** What the calls around the tiles do, and how many of each kind they make. */
  lemma LeadTail(c: Config, p: DrawParams, k: Kind)
    ensures Run(c, Lead(p)) == Config(PassState(c.state, p), c.stack)
    ensures Run(Config(PassState(c.state, p), c.stack), Tail(p)) == Config(EndState(c.state, p), c.stack)
    ensures Count(Lead(p), k) ==
      if p.content.Text? then (if k == FontKind || k == FillStyleKind then 1 else 0)
      else (if k == AlphaKind then 1 else 0)
    ensures Count(Tail(p), k) ==
      if p.content.Text? then (if k == PathKind then 1 else 0)
      else (if k == AlphaKind then 1 else 0)
  {
    var lead, tail := Lead(p), Tail(p);
    var mid := Config(PassState(c.state, p), c.stack);
    RunAt(c, lead, 0);
    CountAt(lead, 0, k);
    if p.content.Text? {
      RunAt(Step(c, lead[0]), lead, 1);
      CountAt(lead, 1, k);
      assert lead[2..] == [];
    } else {
      assert lead[1..] == [];
    }
    assert lead[0..] == lead;
    RunAt(mid, tail, 0);
    CountAt(tail, 0, k);
    assert tail[0..] == tail && tail[1..] == [];
  }

  /**
   * Replaying the log of `draw()` leaves the save stack as it was and the
   * state as EndState says: a text pass leaves its font and fill colour in
   * place, an image pass leaves global alpha at 1 whatever the tile count.
   */
  lemma DrawLogReplay(c: Config, p: DrawParams)
    requires p.HasGaps()
    ensures Run(c, DrawLog(c.state, p)) == Config(EndState(c.state, p), c.stack)
  {
    var lead, tail := Lead(p), Tail(p);
    var mid := Config(PassState(c.state, p), c.stack);
    var tiles := TilesLog(mid.state, PassAnchors(p), p.rotate, PassItem(p));
    RunAppend(c, lead + tiles, tail);
    RunAppend(c, lead, tiles);
    LeadTail(c, p, SaveKind);
    TilesReplay(mid, PassAnchors(p), p.rotate, PassItem(p));
  }

  /**
   * The counts of `draw()`: one tile per anchor, (ceil(W/xGap)+2)*(ceil(H/yGap)+2)
   * in all, each bracketed by save/restore; text and image drawing never mix;
   * a text pass sets font and fill style once, an image pass sets alpha twice
   * (the opacity before the tiles, 1 after).
   */
  lemma DrawLogCounts(s: DrawState, p: DrawParams)
    requires p.HasGaps()
    ensures var n := |PassAnchors(p)|;
      var log := DrawLog(s, p);
      && n == TileCount(p.width, p.xGap) * TileCount(p.height, p.yGap)
      && Count(log, SaveKind) == n && Count(log, RestoreKind) == n
      && Count(log, TextKind) == (if p.content.Text? then n else 0)
      && Count(log, ImageKind) == (if p.content.Image? then n else 0)
      && Count(log, FontKind) == (if p.content.Text? then 1 else 0)
      && Count(log, FillStyleKind) == (if p.content.Text? then 1 else 0)
      && Count(log, AlphaKind) == (if p.content.Image? then 2 else 0)
  {
    var a := PassAnchors(p);
    var tiles := TilesLog(PassState(s, p), a, p.rotate, PassItem(p));
    GridLength(TileCount(p.width, p.xGap), TileCount(p.height, p.yGap), p.xGap, p.yGap);
    forall k: Kind
      ensures Count(DrawLog(s, p), k) == Count(Lead(p), k) + |a| * PerTile(PassItem(p), k) + Count(Tail(p), k)
    {
      CountAppend(Lead(p) + tiles, Tail(p), k);
      CountAppend(Lead(p), tiles, k);
      TilesCount(PassState(s, p), a, p.rotate, PassItem(p), k);
    }
    forall k: Kind
      ensures Count(Lead(p), k) ==
        if p.content.Text? then (if k == FontKind || k == FillStyleKind then 1 else 0)
        else (if k == AlphaKind then 1 else 0)
      ensures Count(Tail(p), k) ==
        if p.content.Text? then (if k == PathKind then 1 else 0)
        else (if k == AlphaKind then 1 else 0)
    {
      LeadTail(Config(s, []), p, k);
    }
  }

  /**
   * Tile (i, k) of a pass is logged as the (i * rows + k)-th tile, right after
   * the leading calls: save, translate to (i * xGap, k * yGap), rotate, draw, restore.
   */
  lemma DrawLogTile(s: DrawState, p: DrawParams, i: nat, k: nat)
    requires p.HasGaps()
    requires i < TileCount(p.width, p.xGap) && k < TileCount(p.height, p.yGap)
    ensures var t := i * TileCount(p.height, p.yGap) + k;
      var off := |Lead(p)| + 5 * t;
      && off + 5 <= |DrawLog(s, p)|
      && DrawLog(s, p)[off .. off + 5] == TileLog(PassState(s, p), Point(i * p.xGap, k * p.yGap), p.rotate, PassItem(p))
  {
    var cols, rows := TileCount(p.width, p.xGap), TileCount(p.height, p.yGap);
    var t := i * rows + k;
    GridAt(cols, rows, p.xGap, p.yGap, i, k);
    var lead, tail := Lead(p), Tail(p);
    var tiles := TilesLog(PassState(s, p), PassAnchors(p), p.rotate, PassItem(p));
    TilesLogAt(PassState(s, p), PassAnchors(p), p.rotate, PassItem(p), t);
    var off := |lead| + 5 * t;
    assert (lead + tiles + tail)[off .. off + 5] == tiles[5 * t .. 5 * t + 5];
  }

  /**
   * Every drawing call of `draw()` uses one font, fill style and alpha, those
   * of the pass: the configured font and colour for text, `opacity ?? 1` for
   * images; each adds exactly two transform steps to the transform the pass started with.
   */
  lemma DrawLogUniform(s: DrawState, p: DrawParams)
    requires p.HasGaps()
    ensures forall c :: c in DrawLog(s, p) && c.IsDraw() ==>
      && (p.content.Text? ==> c.FillText? && c.at.font == p.font && c.at.fillStyle == p.color)
      && (p.content.Image? ==>
            c.DrawImage? && c.at.globalAlpha == Alpha(p.opacity) && c.width == p.imgWidth && c.height == p.imgHeight)
      && c.at.globalAlpha == PassState(s, p).globalAlpha
      && |c.at.transform| == |s.transform| + 2 && c.at.transform[..|s.transform|] == s.transform
  {
    var ps := PassState(s, p);
    var tiles := TilesLog(ps, PassAnchors(p), p.rotate, PassItem(p));
    TilesDrawWith(ps, PassAnchors(p), p.rotate, PassItem(p));
    TilesItems(ps, PassAnchors(p), p.rotate, PassItem(p));
    forall c | c in DrawLog(s, p) && c.IsDraw()
      ensures c in tiles
    {
      assert c !in Lead(p) && c !in Tail(p);
    }
  }

  /** The drawing calls among the tiles all draw the pass item. */
  lemma {:induction false} TilesItems(s: DrawState, ps: seq<Point>, rotate: int, item: Item)
    ensures forall c :: c in TilesLog(s, ps, rotate, item) && c.IsDraw() ==>
      (item.TextItem? ==> c.FillText? && c.text == item.text) &&
      (item.ImageItem? ==> c.DrawImage? && c.image == item.image && c.width == item.width && c.height == item.height)
    decreases |ps|
  {
    if ps != [] {
      TilesItems(s, ps[..|ps| - 1], rotate, item);
    }
  }
}
