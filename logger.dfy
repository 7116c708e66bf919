/**
 * `MCDReforgedLogger`: the logger's handler slots, the class-wide debug
 * option mask it sets, and the debug gates of `mdebug` and `debug`.
 *
 * Records that reach the standard logger's `_log` are appended to
 * `emitted`; what the handlers then write is not modelled.
 */
module McdrLogger {
  import opened Optional
  import opened DebugOptions

  /** A logging handler; only whether it is the file handler matters here. */
  class Handler {
    const isFile: bool
    const path: string
    var closed: bool

    constructor Console()
      ensures !isFile && !closed
    {
      isFile := false;
      path := "";
      closed := false;
    }

    constructor File(path: string)
      ensures isFile && this.path == path && !closed
    {
      isFile := true;
      this.path := path;
      closed := false;
    }
  }

  /** The class attribute `debug_options`, shared by every logger. */
  class DebugFlags {
    var mask: Mask

    constructor ()
      ensures mask == {}
    {
      mask := {};
    }
  }

  predicate Distinct(hs: seq<Handler>)
  {
    forall i, j :: 0 <= i < j < |hs| ==> hs[i] != hs[j]
  }

  /** Appending a handler not yet present keeps a list without repetitions. */
  lemma AppendDistinct(hs: seq<Handler>, h: Handler)
    requires Distinct(hs) && h !in hs
    ensures Distinct(hs + [h])
  {
  }

  /** The position of the first occurrence of `h` in `hs`. */
  function IndexOf(hs: seq<Handler>, h: Handler): (i: nat)
    requires h in hs
    ensures i < |hs| && hs[i] == h && h !in hs[..i]
  {
    if hs[0] == h then 0
    else
      var j := IndexOf(hs[1..], h);
      assert hs[..j + 1] == [hs[0]] + hs[1..][..j];
      j + 1
  }

  /** `list.remove(h)` when `h` is present, as `removeHandler` does: the
      first occurrence goes and the other handlers keep their order. */
  function Without(hs: seq<Handler>, h: Handler): (r: seq<Handler>)
    ensures h !in hs ==> r == hs
    ensures h in hs ==> r == hs[..IndexOf(hs, h)] + hs[IndexOf(hs, h) + 1..]
  {
    if hs == [] then []
    else if hs[0] == h then hs[1..]
    else
      var rest := Without(hs[1..], h);
      WithoutStep(hs, h);
      [hs[0]] + rest
  }

  /** The first occurrence behind a different head is one place further on
      than in the tail. */
  lemma WithoutStep(hs: seq<Handler>, h: Handler)
    requires hs != [] && hs[0] != h
    ensures h in hs <==> h in hs[1..]
    ensures h in hs[1..] ==>
      var j := IndexOf(hs[1..], h);
      IndexOf(hs, h) == j + 1 && hs[..j + 1] == [hs[0]] + hs[1..][..j] && hs[j + 2..] == hs[1..][j + 1..]
  {
    assert hs == [hs[0]] + hs[1..];
    if h in hs[1..] {
      var j := IndexOf(hs[1..], h);
      assert IndexOf(hs, h) == j + 1;
      assert hs[..j + 1] == [hs[0]] + hs[1..][..j];
    }
  }

  /** Removing a handler keeps every other handler and adds none; from a
      list without repetitions it removes the handler entirely and keeps the
      list without repetitions. */
  lemma WithoutDistinct(hs: seq<Handler>, h: Handler)
    requires Distinct(hs)
    ensures Distinct(Without(hs, h)) && h !in Without(hs, h)
    ensures forall x :: x in Without(hs, h) ==> x in hs
    ensures forall x :: x in hs && x != h ==> x in Without(hs, h)
  {
    if h in hs {
      var i := IndexOf(hs, h);
      var r := Without(hs, h);
      assert |r| == |hs| - 1;
      forall a | 0 <= a < |r| ensures r[a] == hs[if a < i then a else a + 1] {
      }
      forall a, b | 0 <= a < b < |r| ensures r[a] != r[b] {
        assert hs[if a < i then a else a + 1] != hs[if b < i then b else b + 1];
      }
      forall a | 0 <= a < |r| ensures r[a] != h {
        assert hs[if a < i then a else a + 1] != hs[i];
      }
      forall x | x in hs && x != h ensures x in r {
        var k :| 0 <= k < |hs| && hs[k] == x;
        assert r[if k < i then k else k - 1] == x;
      }
    }
  }

  /** The number of file handlers in `hs`. */
  function FileHandlers(hs: seq<Handler>): nat
  {
    if hs == [] then 0 else (if hs[0].isFile then 1 else 0) + FileHandlers(hs[1..])
  }

  /** A list of distinct handlers whose only file handler is `f` holds
      exactly one file handler; one with none holds zero. */
  lemma {:induction false} FileHandlersCount(hs: seq<Handler>, f: Handler?)
    requires Distinct(hs)
    requires f != null ==> f.isFile
    requires forall h :: h in hs && h.isFile ==> h == f
    ensures FileHandlers(hs) == if f != null && f in hs then 1 else 0
  {
    if hs != [] {
      assert forall h :: h in hs[1..] ==> h in hs;
      assert Distinct(hs[1..]) by {
        forall i, j | 0 <= i < j < |hs| - 1 ensures hs[1..][i] != hs[1..][j] {
          assert hs[i + 1] != hs[j + 1];
        }
      }
      FileHandlersCount(hs[1..], f);
      if hs[0] == f {
        assert f !in hs[1..] by {
          forall j | 1 <= j < |hs| ensures hs[j] != hs[0] {
            assert hs[0] != hs[j];
          }
        }
      }
    }
  }

  class Logger {
    const catalogue: Catalogue
    /** The class-level debug option mask. */
    const flags: DebugFlags
    const pluginId: Option<string>
    const consoleHandler: Handler
    var level: int
    var handlers: seq<Handler>
    var fileHandler: Handler?
    /** The records handed to the standard logger so far. */
    var emitted: seq<LogRecord>

    /** The console handler stays installed, no handler is installed twice,
        and the only file handler installed is `fileHandler`. */
    ghost predicate Valid()
      reads this
    {
      && AllName in catalogue
      && consoleHandler in handlers && !consoleHandler.isFile
      && Distinct(handlers)
      && (forall h :: h in handlers && h.isFile ==> h == fileHandler)
      && (fileHandler != null ==> fileHandler.isFile && fileHandler in handlers)
    }

    constructor (catalogue: Catalogue, flags: DebugFlags, pluginId: Option<string>)
      requires AllName in catalogue
      ensures Valid()
      ensures this.catalogue == catalogue && this.flags == flags && this.pluginId == pluginId
      ensures level == INFO && fileHandler == null && handlers == [consoleHandler] && emitted == []
      ensures fresh(consoleHandler)
    {
      this.catalogue := catalogue;
      this.flags := flags;
      this.pluginId := pluginId;
      var console := new Handler.Console();
      consoleHandler := console;
      handlers := [console];
      fileHandler := null;
      level := INFO;
      emitted := [];
    }

    /** `setLevel`, inherited from the standard logger. */
    method SetLevel(l: int)
      requires Valid()
      modifies this
      ensures Valid() && level == l
      ensures handlers == old(handlers) && fileHandler == old(fileHandler) && emitted == old(emitted)
    {
      level := l;
    }

    /** `_log`: passes the record on with the plugin id added to `extra`
        and `stacklevel` raised by one, or raises `TypeError` (reported as
        `typeError`) on an explicit `None` it cannot use. */
    method Log(lvl: int, msg: string, extra: Kwarg<map<string, string>>, stacklevel: Kwarg<int>)
      returns (typeError: bool)
      requires Valid()
      modifies this
      ensures Valid()
      ensures var kw := LogKwargs(pluginId, extra, stacklevel);
        && typeError == kw.TypeError?
        && emitted == old(emitted) + if kw.TypeError? then [] else [LogRecord(lvl, msg, kw.extra, kw.stacklevel)]
      ensures level == old(level) && handlers == old(handlers) && fileHandler == old(fileHandler)
    {
      var kw := LogKwargs(pluginId, extra, stacklevel);
      if kw.TypeError? {
        typeError := true;
      } else {
        typeError := false;
        emitted := emitted + [LogRecord(lvl, msg, kw.extra, kw.stacklevel)];
      }
    }

    /** `mdebug`: a DEBUG record, unless the logger is above DEBUG and the
        mask enables neither ALL nor `option`, and the check is not skipped. */
    method Mdebug(msg: string, option: Option<string>, noCheck: bool, stacklevel: int)
      requires Valid()
      requires option.Some? ==> option.value in catalogue
      modifies this
      ensures Valid()
      ensures var kw := LogKwargs(pluginId, Absent, Given(Some(stacklevel)));
        emitted == old(emitted) +
          if MdebugEmits(catalogue, flags.mask, level, option, noCheck) then [LogRecord(DEBUG, msg, kw.extra, kw.stacklevel)] else []
      ensures level == old(level) && handlers == old(handlers) && fileHandler == old(fileHandler)
    {
      if noCheck || DebugEnabled(level) || ShouldLogDebug(catalogue, flags.mask, option) {
        var _ := Log(DEBUG, msg, Absent, Given(Some(stacklevel)));
      }
    }

    /** `debug`: a DEBUG record when the logger is at DEBUG level or the
        mask enables ALL; `_log`'s `TypeError` is reported as `typeError`. */
    method Debug(msg: string, extra: Kwarg<map<string, string>>, stacklevel: Kwarg<int>) returns (typeError: bool)
      requires Valid()
      modifies this
      ensures Valid()
      ensures var kw := LogKwargs(pluginId, extra, stacklevel);
        var emits := DebugEmits(catalogue, flags.mask, level);
        && typeError == (emits && kw.TypeError?)
        && emitted == old(emitted) + if emits && kw.Kwargs? then [LogRecord(DEBUG, msg, kw.extra, kw.stacklevel)] else []
      ensures level == old(level) && handlers == old(handlers) && fileHandler == old(fileHandler)
    {
      typeError := false;
      if DebugEnabled(level) || ShouldLogDebug(catalogue, flags.mask, Some(AllName)) {
        typeError := Log(DEBUG, msg, extra, stacklevel);
      }
    }

    /** `set_debug_options`: clears the class mask, then or-s in the mask of
        every option set to true, announcing each one. A key set to true that
        names no option raises `KeyError` with the upper-cased key (returned
        here) after the entries before it were applied. */
    method SetDebugOptions(items: seq<Item>) returns (keyError: Option<string>)
      requires Valid()
      modifies this, flags
      ensures Valid()
      ensures var k := FirstUnknown(catalogue, items);
        && keyError == (if k == |items| then None else Some(Upper(items[k].0)))
        && flags.mask == ItemsMask(catalogue, items[..k])
        && emitted == old(emitted) + Announcements(pluginId, items[..k])
      ensures level == old(level) && handlers == old(handlers) && fileHandler == old(fileHandler)
    {
      var k := FirstUnknown(catalogue, items);
      flags.mask := {};
      var i := 0;
      while i < |items|
        invariant 0 <= i <= k
        invariant flags.mask == ItemsMask(catalogue, items[..i])
        invariant emitted == old(emitted) + Announcements(pluginId, items[..i])
        invariant Valid()
        invariant level == old(level) && handlers == old(handlers) && fileHandler == old(fileHandler)
      {
        var (key, value) := items[i];
        assert items[..i + 1][..i] == items[..i];
        if value {
          var name := Upper(key);
          if name !in catalogue {
            return Some(name);
          }
          flags.mask := flags.mask + OptionMask(catalogue, name);
          Mdebug("Debug option DebugOption." + name + " is set to True", Some(name), false, 1);
        }
        i := i + 1;
      }
      assert items[..i] == items;
      keyError := None;
    }

    /** `unset_file`: removes and closes the file handler, if there is one. */
    method UnsetFile()
      requires Valid()
      modifies this, fileHandler
      ensures Valid() && fileHandler == null
      ensures old(fileHandler) != null ==> old(fileHandler).closed && handlers == Without(old(handlers), old(fileHandler))
      ensures old(fileHandler) == null ==> handlers == old(handlers)
      ensures FileHandlers(handlers) == 0
      ensures level == old(level) && emitted == old(emitted)
    {
      if fileHandler != null {
        WithoutDistinct(handlers, fileHandler);
        handlers := Without(handlers, fileHandler);
        fileHandler.closed := true;
        fileHandler := null;
      }
      FileHandlersCount(handlers, fileHandler);
    }

    /** `set_file`: replaces any file handler with a new one for `path`. */
    method SetFile(path: string)
      requires Valid()
      modifies this, fileHandler
      ensures Valid()
      ensures fileHandler != null && fresh(fileHandler) && fileHandler.path == path && !fileHandler.closed
      ensures old(fileHandler) != null ==> old(fileHandler).closed
      ensures handlers == (if old(fileHandler) != null then Without(old(handlers), old(fileHandler)) else old(handlers)) + [fileHandler]
      ensures FileHandlers(handlers) == 1
      ensures level == old(level) && emitted == old(emitted)
    {
      if fileHandler != null {
        UnsetFile();
      }
      var h := new Handler.File(path);
      assert h !in handlers;
      AppendDistinct(handlers, h);
      fileHandler := h;
      handlers := handlers + [h];
      FileHandlersCount(handlers, fileHandler);
    }
  }
}
