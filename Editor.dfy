/**
 * The editor session: what the page keeps in the DOM and in module-level
 * variables, held as fields of one object, and the event handlers as methods.
 */
module Editor {
  import opened Wrappers
  import opened Grid
  import opened Labels
  import opened Config

  /** A label's `style.left` and `style.top`, in pixels from the container's corner. */
  datatype Pixel = Pixel(left: real, top: real)

  /** What the message area shows. */
  datatype Message = Blank | FileNameError | ImportDone | InvalidJson

  /** The pixel position at which each grid position is drawn. */
  function Draw(grid: map<LabelId, Point>, sx: real, sy: real): (pos: map<LabelId, Pixel>)
    ensures pos.Keys == grid.Keys
  {
    map l | l in grid :: Pixel(ToPixel(grid[l].x, sx), ToPixel(grid[l].y, sy))
  }

  /** The grid position read back from each pixel position. */
  function Read(pos: map<LabelId, Pixel>, sx: real, sy: real): (grid: map<LabelId, Point>)
    requires sx > 0.0 && sy > 0.0
    ensures grid.Keys == pos.Keys
  {
    map l | l in pos :: Point(FromPixel(pos[l].left, sx), FromPixel(pos[l].top, sy))
  }

  /** Reading back what was drawn gives the grid positions that were drawn. */
  lemma ReadDraw(grid: map<LabelId, Point>, sx: real, sy: real)
    requires sx > 0.0 && sy > 0.0
    ensures Read(Draw(grid, sx, sy), sx, sy) == grid
  {
    forall l | l in grid
      ensures Read(Draw(grid, sx, sy), sx, sy)[l] == grid[l]
    {
      GridRoundTrip(grid[l].x, sx);
      GridRoundTrip(grid[l].y, sy);
    }
  }

  /** The pixel position at which placing from m draws label l. */
  function PlacedPixel(m: map<string, Value>, sx: real, sy: real, l: LabelId): Pixel
    requires Placeable(m)
  {
    var p := PlacedAt(m, l);
    Pixel(ToPixel(p.x, sx), ToPixel(p.y, sy))
  }

  /** A loop over labels that drew each one where m places it has drawn the whole placement. */
  lemma {:induction false} DrewAll(labels: seq<LabelId>, pos: map<LabelId, Pixel>, m: map<string, Value>, sx: real, sy: real)
    requires Placeable(m)
    requires forall l :: l in labels && l in pos
    requires forall k :: 0 <= k < |labels| ==> pos[labels[k]] == PlacedPixel(m, sx, sy, labels[k])
    ensures pos == Draw(Placement(m), sx, sy)
  {
    var target := Draw(Placement(m), sx, sy);
    forall l | l in pos
      ensures pos[l] == target[l]
    {
      var k :| 0 <= k < |labels| && labels[k] == l;
    }
  }

  class Session {
    /** The label elements of the page, in document order. */
    const labels: seq<LabelId>
    /** The container's rendered size in pixels. */
    var width: real
    var height: real
    /** Each label's drawn position. */
    var pos: map<LabelId, Pixel>
    /** The labels whose stacking order is raised (`zIndex = 100`). */
    var raised: set<LabelId>
    /** The shadow checkbox. */
    var showShadow: bool
    /** The drag state. */
    var isDragging: bool
    var currentLabel: Option<LabelId>
    var offsetX: real
    var offsetY: real
    var message: Message

    ghost predicate Valid()
      reads this
    {
      && (forall l :: l in labels)
      && (forall l :: l in pos)
      && width > 0.0 && height > 0.0
      && (isDragging <==> currentLabel.Some?)
    }

    function ScaleX(): real
      reads this
      requires width > 0.0
    {
      Scale(width, GRID_WIDTH)
    }

    function ScaleY(): real
      reads this
      requires height > 0.0
    {
      Scale(height, GRID_HEIGHT)
    }

    /** The grid position of every label, as an export reads it back. */
    ghost function Layout(): map<LabelId, Point>
      reads this
      requires Valid()
    {
      Read(pos, ScaleX(), ScaleY())
    }

    /** Page load: every label at its default, no drag, an empty message. */
    constructor (labels: seq<LabelId>, width: real, height: real, checked: bool)
      requires forall l :: l in labels
      requires width > 0.0 && height > 0.0
      ensures Valid()
      ensures this.labels == labels && this.width == width && this.height == height
      ensures pos == Draw(Defaults(), ScaleX(), ScaleY())
      ensures Layout() == Defaults()
      ensures showShadow == checked
      ensures !isDragging && currentLabel == None && raised == {} && message == Blank
    {
      this.labels := labels;
      this.width := width;
      this.height := height;
      pos := Draw(Defaults(), 0.0, 0.0);  // every label at the container's corner until placed
      showShadow := checked;
      isDragging := false;
      currentLabel := None;
      offsetX, offsetY := 0.0, 0.0;
      new;
      PlaceDefaults();
      raised := {};
      message := Blank;
    }

    /**
     * placeLabels: draw every label at the pair under its key in m, or at its
     * default when the key is absent or falsy; take the shadow flag from m
     * when m defines it.
     */
    method PlaceLabels(m: map<string, Value>)
      requires Valid() && Placeable(m)
      modifies this`pos, this`showShadow
      ensures Valid()
      ensures pos == Draw(Placement(m), ScaleX(), ScaleY())
      ensures Layout() == Placement(m)
      ensures showShadow == ShadowAfter(m, old(showShadow))
    {
      var sx, sy := ScaleX(), ScaleY();
      var i := 0;
      while i < |labels|
        invariant 0 <= i <= |labels|
        invariant forall l :: l in pos
        invariant forall k :: 0 <= k < i ==> pos[labels[k]] == PlacedPixel(m, sx, sy, labels[k])
        modifies this`pos
      {
        var l := labels[i];
        var key := Key(l);
        var p := if key in m && Truthy(m[key]) then Point(m[key].x, m[key].y) else Default(l);
        pos := pos[l := Pixel(ToPixel(p.x, sx), ToPixel(p.y, sy))];
        i := i + 1;
      }
      DrewAll(labels, pos, m, sx, sy);
      if SHADOW_KEY in m {
        showShadow := Truthy(m[SHADOW_KEY]);
      }
      ReadDraw(Placement(m), sx, sy);
    }

    /** The window was resized: the container's new size, then every label back at its default. */
    method Resize(newWidth: real, newHeight: real)
      requires Valid()
      requires newWidth > 0.0 && newHeight > 0.0
      modifies this`width, this`height, this`pos, this`showShadow
      ensures Valid()
      ensures width == newWidth && height == newHeight
      ensures pos == Draw(Defaults(), ScaleX(), ScaleY())
      ensures Layout() == Defaults()
      ensures showShadow == old(showShadow)
    {
      width, height := newWidth, newHeight;
      PlaceDefaults();
    }

    /** `placeLabels(defaultPositions)`: every label at its default, the flag kept. */
    method PlaceDefaults()
      requires Valid()
      modifies this`pos, this`showShadow
      ensures Valid()
      ensures pos == Draw(Defaults(), ScaleX(), ScaleY())
      ensures Layout() == Defaults()
      ensures showShadow == old(showShadow)
    {
      DefaultInputResets(showShadow);
      PlaceLabels(DefaultInput());
    }

    /**
     * A file was chosen: only `_global_variables.json` is read; a text that
     * does not parse changes no label; a parsed map is placed.
     */
    method Import(fileName: string, parsed: Option<map<string, Value>>)
      requires Valid()
      requires fileName == REQUIRED_FILE_NAME && parsed.Some? ==> Placeable(parsed.value)
      modifies this`pos, this`showShadow, this`message
      ensures Valid()
      ensures fileName != REQUIRED_FILE_NAME ==>
        message == FileNameError && pos == old(pos) && showShadow == old(showShadow)
      ensures fileName == REQUIRED_FILE_NAME && parsed.None? ==>
        message == InvalidJson && pos == old(pos) && showShadow == old(showShadow)
      ensures fileName == REQUIRED_FILE_NAME && parsed.Some? ==>
        && message == ImportDone
        && pos == Draw(Placement(parsed.value), ScaleX(), ScaleY())
        && Layout() == Placement(parsed.value)
        && showShadow == ShadowAfter(parsed.value, old(showShadow))
    {
      message := Blank;
      if fileName != REQUIRED_FILE_NAME {
        message := FileNameError;
        return;
      }
      match parsed
      case None =>
        message := InvalidJson;
      case Some(m) =>
        PlaceLabels(m);
        message := ImportDone;
    }

    /**
     * Pointer down on label l: drag it, remember where on it it was grabbed,
     * raise it. The container's corner is at (left, top) in client coordinates.
     */
    method MouseDown(l: LabelId, clientX: real, clientY: real, left: real, top: real)
      requires Valid()
      modifies this`isDragging, this`currentLabel, this`offsetX, this`offsetY, this`raised
      ensures Valid()
      ensures isDragging && currentLabel == Some(l)
      ensures offsetX == clientX - (left + pos[l].left)
      ensures offsetY == clientY - (top + pos[l].top)
      ensures raised == old(raised) + {l}
    {
      isDragging := true;
      currentLabel := Some(l);
      offsetX := clientX - (left + pos[l].left);
      offsetY := clientY - (top + pos[l].top);
      raised := raised + {l};
    }

    /**
     * Pointer move over the container whose corner is at (left, top): while
     * dragging, move the dragged label to the rounded, clamped grid position
     * under the pointer; otherwise nothing.
     */
    method MouseMove(clientX: real, clientY: real, left: real, top: real)
      requires Valid()
      modifies this`pos
      ensures Valid()
      ensures !old(isDragging) ==> pos == old(pos)
      ensures old(isDragging) ==>
        var l := currentLabel.value;
        var g := Point(ToGrid(clientX - left - offsetX, ScaleX(), GRID_WIDTH),
                       ToGrid(clientY - top - offsetY, ScaleY(), GRID_HEIGHT));
        && pos == old(pos)[l := Pixel(ToPixel(g.x, ScaleX()), ToPixel(g.y, ScaleY()))]
        && Layout() == old(Layout())[l := g]
        && 0 <= Layout()[l].x < GRID_WIDTH && 0 <= Layout()[l].y < GRID_HEIGHT
    {
      if !isDragging {
        return;
      }
      var x := clientX - left - offsetX;
      var y := clientY - top - offsetY;
      var sx, sy := ScaleX(), ScaleY();
      var gridX := Clamp(Round(x / sx), 0, GRID_WIDTH - 1);
      var gridY := Clamp(Round(y / sy), 0, GRID_HEIGHT - 1);
      var l := currentLabel.value;
      pos := pos[l := Pixel(ToPixel(gridX, sx), ToPixel(gridY, sy))];
      GridRoundTrip(gridX, sx);
      GridRoundTrip(gridY, sy);
      assert Layout() == old(Layout())[l := Point(gridX, gridY)];
    }

    /** Pointer up over the container: end the drag and lower the label; nothing when idle. */
    method MouseUp()
      requires Valid()
      modifies this`isDragging, this`currentLabel, this`raised
      ensures Valid()
      ensures old(isDragging) ==>
        !isDragging && currentLabel == None && raised == old(raised) - {old(currentLabel).value}
      ensures !old(isDragging) ==>
        !isDragging && currentLabel == old(currentLabel) && raised == old(raised)
    {
      if isDragging {
        isDragging := false;
        raised := raised - {currentLabel.value};
        currentLabel := None;
      }
    }

    /**
     * The export button: each label's grid position under its key, plus the
     * shadow flag, to be saved as `_global_variables.json`.
     */
    method Export() returns (config: map<string, Value>, fileName: string)
      requires Valid()
      ensures config == ExportConfig(labels, Layout(), showShadow)
      ensures forall l :: Key(l) in config && config[Key(l)] == Pair(Layout()[l].x, Layout()[l].y)
      ensures config[SHADOW_KEY] == Bool(showShadow)
      ensures fileName == REQUIRED_FILE_NAME
    {
      var sx, sy := ScaleX(), ScaleY();
      ghost var grid := Layout();
      config := map[];
      var i := 0;
      while i < |labels|
        invariant 0 <= i <= |labels|
        invariant config == Entries(labels[..i], grid)
      {
        var l := labels[i];
        var x := FromPixel(pos[l].left, sx);
        var y := FromPixel(pos[l].top, sy);
        assert labels[..i + 1][..i] == labels[..i];
        config := config[Key(l) := Pair(x, y)];
        i := i + 1;
      }
      assert labels[..i] == labels;
      config := config[SHADOW_KEY := Bool(showShadow)];
      fileName := REQUIRED_FILE_NAME;
      forall l: LabelId
        ensures Key(l) in config && config[Key(l)] == Pair(grid[l].x, grid[l].y)
      {
        ExportEntry(labels, grid, showShadow, l);
      }
      ExportShape(labels, grid, showShadow);
    }

    /** Importing the file an export just produced restores every label and the flag. */
    method ReimportExport()
      requires Valid()
      modifies this`pos, this`showShadow, this`message
      ensures Valid()
      ensures Layout() == old(Layout()) && showShadow == old(showShadow) && message == ImportDone
    {
      var config, fileName := Export();
      ImportOfExport(labels, Layout(), showShadow, showShadow);
      Import(fileName, Some(config));
    }
  }
}
