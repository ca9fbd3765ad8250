/** The size of a text terminal, from the TTY or from `$COLUMNS` and `$LINES`.

    The environment lookups and the TTY query are inputs: `columnsVar` and
    `linesVar` are what `std::env::var(..).ok()` yields, `tty` what
    `term_size::dimensions()` yields, and `parse` stands for
    `str::parse::<usize>` followed by `.ok()`. */
module TerminalSize {
  import opened Wrappers

  /** `usize` on a 64-bit target. */
  const USIZE_MAX: int := 0xFFFF_FFFF_FFFF_FFFF
  type Usize = x: int | 0 <= x <= USIZE_MAX

  /** The size of a text terminal, in columns and lines. */
  datatype Size = Size(width: Usize, height: Usize)

  /** A good default assumption for a terminal: 80x24. */
  function Default(): (s: Size)
    ensures s.width == 80 && s.height == 24
  {
    Size(80, 24)
  }

  function New(width: Usize, height: Usize): (s: Size)
    ensures s.width == width && s.height == height
  {
    Size(width, height)
  }

  /** The terminal size from `$COLUMNS` and `$LINES`: a size only when both
      are set and both parse, and then exactly those two numbers. */
  function FromEnv(columnsVar: Option<string>, linesVar: Option<string>, parse: string -> Option<Usize>)
    : (r: Option<Size>)
    ensures r.Some? <==> columnsVar.Some? && parse(columnsVar.value).Some?
                         && linesVar.Some? && parse(linesVar.value).Some?
    ensures r.Some? ==> r.value.width == parse(columnsVar.value).value
                        && r.value.height == parse(linesVar.value).value
  {
    var columns := columnsVar.AndThen(parse);
    var rows := linesVar.AndThen(parse);
    match (columns, rows)
    case (Some(c), Some(l)) => Some(New(c, l))
    case _ => None
  }

  /** The terminal size from the TTY, falling back to the environment. There
      is no third fallback: with neither source the answer is `None`. */
  function Detect(tty: Option<(Usize, Usize)>, columnsVar: Option<string>, linesVar: Option<string>,
                  parse: string -> Option<Usize>): (r: Option<Size>)
    ensures tty.Some? ==> r == Some(Size(tty.value.0, tty.value.1))
    ensures tty.None? ==> r == FromEnv(columnsVar, linesVar, parse)
    ensures r.None? <==> tty.None? && FromEnv(columnsVar, linesVar, parse).None?
  {
    tty.Map((d: (Usize, Usize)) => New(d.0, d.1)).OrElse(() => FromEnv(columnsVar, linesVar, parse))
  }

  /** With a TTY answer, the environment plays no part. */
  lemma DetectIgnoresEnvWithTty(w: Usize, h: Usize, c1: Option<string>, l1: Option<string>,
                                c2: Option<string>, l2: Option<string>, p1: string -> Option<Usize>,
                                p2: string -> Option<Usize>)
    ensures Detect(Some((w, h)), c1, l1, p1) == Detect(Some((w, h)), c2, l2, p2)
  {
  }

  /** `Detect` does not supply the 80x24 default: when neither the TTY nor the
      environment gives a size it answers `None`, and `$COLUMNS` alone is not
      enough. */
  lemma DetectAppliesNoDefault(columns: string, parse: string -> Option<Usize>)
    ensures Detect(None, None, None, parse) == None
    ensures Detect(None, Some(columns), None, parse) == None
  {
  }
}
