/**
 * The pure rules of MCDR's logger: the debug-option bitmask and the tests
 * made on it, the gates of `mdebug` and `debug`, and the keyword arguments
 * `_log` passes on to the standard logger.
 *
 * A non-negative Python int used as a bitmask is modelled as the set of the
 * positions of its 1 bits: `a | b` is `a + b` and `a & b != 0` is
 * `a * b != {}`. The `DebugOption` enum is modelled as a catalogue mapping
 * each member's (upper-case) name to the one bit of its mask.
 */
module DebugOptions {
  import opened Optional

  type Mask = set<nat>

  /** The `DebugOption` members: name to the bit position of its mask. */
  type Catalogue = map<string, nat>

  const AllName: string := "ALL"

  /** Levels of the standard `logging` module. */
  const DEBUG: int := 10
  const INFO: int := 20

  /** The `extra` key the plugin-id-aware formatter reads. */
  const PluginIdKey: string := "plugin_id"

  /** The mask of the option called `name`. */
  function OptionMask(cat: Catalogue, name: string): Mask
    requires name in cat
  {
    {cat[name]}
  }

  /** `str.upper()` on one character, for ASCII letters. */
  function UpperChar(c: char): (u: char)
    ensures 'a' <= c <= 'z' ==> 'A' <= u <= 'Z' && u as int == c as int - 32
    ensures !('a' <= c <= 'z') ==> u == c
  {
    if 'a' <= c <= 'z' then (c as int - 32) as char else c
  }

  /** `str.upper()`, for ASCII letters. */
  function Upper(s: string): (r: string)
    ensures |r| == |s|
    ensures forall i :: 0 <= i < |s| ==> r[i] == UpperChar(s[i])
  {
    if s == [] then [] else [UpperChar(s[0])] + Upper(s[1..])
  }

  /** `should_log_debug(option)`: the mask tested against `ALL.mask`, or-ed
      with `option.mask` when an option is given. */
  function ShouldLogDebug(cat: Catalogue, debugOptions: Mask, option: Option<string>): (b: bool)
    requires AllName in cat
    requires option.Some? ==> option.value in cat
    ensures option.None? ==> (b <==> cat[AllName] in debugOptions)
    ensures option.Some? ==> (b <==> cat[AllName] in debugOptions || cat[option.value] in debugOptions)
  {
    var flags := OptionMask(cat, AllName) + (if option.Some? then OptionMask(cat, option.value) else {});
    assert cat[AllName] in debugOptions ==> cat[AllName] in debugOptions * flags;
    assert option.Some? && cat[option.value] in debugOptions ==> cat[option.value] in debugOptions * flags;
    assert forall x :: x in debugOptions * flags ==> x == cat[AllName] || (option.Some? && x == cat[option.value]);
    debugOptions * flags != {}
  }

  /** Setting more bits never silences a debug message. */
  lemma ShouldLogDebugMonotone(cat: Catalogue, fewer: Mask, more: Mask, option: Option<string>)
    requires AllName in cat
    requires option.Some? ==> option.value in cat
    requires fewer <= more
    ensures ShouldLogDebug(cat, fewer, option) ==> ShouldLogDebug(cat, more, option)
  {
  }

  /** `debug(...)` asks with `DebugOption.ALL`, which is the same as asking
      with no option. */
  lemma AllIsNoOption(cat: Catalogue, debugOptions: Mask)
    requires AllName in cat
    ensures ShouldLogDebug(cat, debugOptions, Some(AllName)) == ShouldLogDebug(cat, debugOptions, None)
  {
  }

  /** `isEnabledFor(DEBUG)` for a logger whose level is `level`. */
  predicate DebugEnabled(level: int)
  {
    DEBUG >= level
  }

  /** Whether `mdebug` emits its message. */
  predicate MdebugEmits(cat: Catalogue, debugOptions: Mask, level: int, option: Option<string>, noCheck: bool)
    requires AllName in cat
    requires option.Some? ==> option.value in cat
  {
    noCheck || DebugEnabled(level) || ShouldLogDebug(cat, debugOptions, option)
  }

  /** Whether `debug` emits its message. */
  predicate DebugEmits(cat: Catalogue, debugOptions: Mask, level: int)
    requires AllName in cat
  {
    DebugEnabled(level) || ShouldLogDebug(cat, debugOptions, Some(AllName))
  }

  /** `mdebug` emits exactly when the check is skipped, the logger is at
      DEBUG level, or the mask has the ALL bit or the option's bit; `debug`
      is `mdebug` with neither a skipped check nor an option. */
  lemma GatesByBits(cat: Catalogue, debugOptions: Mask, level: int, option: Option<string>, noCheck: bool)
    requires AllName in cat
    requires option.Some? ==> option.value in cat
    ensures MdebugEmits(cat, debugOptions, level, option, noCheck) <==>
      noCheck || level <= DEBUG || cat[AllName] in debugOptions || (option.Some? && cat[option.value] in debugOptions)
    ensures DebugEmits(cat, debugOptions, level) == MdebugEmits(cat, debugOptions, level, None, false)
  {
  }

  /** A record handed to the standard logger's `_log`. */
  datatype LogRecord = LogRecord(level: int, msg: string, extra: Option<map<string, string>>, stacklevel: int)

  /** A keyword argument as `_log` receives it: not passed at all, or passed,
      possibly as `None`. */
  datatype Kwarg<T> = Absent | Given(value: Option<T>)

  /** What `_log` makes of its keyword arguments: the `extra` (`None` when
      there is none) and `stacklevel` it passes on, or the `TypeError` it
      raises on an explicit `None`. */
  datatype Kwargs = Kwargs(extra: Option<map<string, string>>, stacklevel: int) | TypeError

  /** `kwargs.get(name, default)`. */
  function GetKwarg<T>(k: Kwarg<T>, default: T): Option<T>
  {
    match k
    case Absent => Some(default)
    case Given(v) => v
  }

  /** The keyword arguments `_log` passes on, given the ones it received. */
  function LogKwargs(pluginId: Option<string>, extra: Kwarg<map<string, string>>, stacklevel: Kwarg<int>): (r: Kwargs)
    ensures r.TypeError? <==> stacklevel == Given(None) || (pluginId.Some? && extra == Given(None))
    ensures r.Kwargs? ==> r.stacklevel == (if stacklevel.Given? then stacklevel.value.value else 1) + 1
    ensures r.Kwargs? && pluginId.None? ==> r.extra == (if extra.Given? then extra.value else None)
    ensures r.Kwargs? && pluginId.Some? ==>
      var given := if extra.Given? then extra.value.value else map[];
      && r.extra.Some? && r.extra.value.Keys == given.Keys + {PluginIdKey}
      && r.extra.value[PluginIdKey] == pluginId.value
      && forall k :: k in given && k != PluginIdKey ==> r.extra.value[k] == given[k]
  {
    var extra' := GetKwarg(extra, map[]);
    var level' := GetKwarg(stacklevel, 1);
    if pluginId.Some? && extra'.None? then TypeError      // `None[key] = ...`
    else if level'.None? then TypeError                    // `None + 1`
    else if pluginId.Some? then Kwargs(Some(extra'.value[PluginIdKey := pluginId.value]), level'.value + 1)
    else Kwargs(if extra.Given? then extra.value else None, level'.value + 1)
  }

  /** One entry of the `debug_options` dict: a key and its value. */
  type Item = (string, bool)

  /** An entry that `set_debug_options` can apply: false, or naming an option. */
  predicate Known(cat: Catalogue, item: Item)
  {
    !item.1 || Upper(item.0) in cat
  }

  /** The index of the first entry set to true whose key names no option
      (the one that raises `KeyError`), or the number of entries. */
  function FirstUnknown(cat: Catalogue, items: seq<Item>): (k: nat)
    ensures k <= |items|
    ensures forall i :: 0 <= i < k ==> Known(cat, items[i])
    ensures k < |items| ==> !Known(cat, items[k])
  {
    if items == [] then 0
    else if !Known(cat, items[0]) then 0
    else 1 + FirstUnknown(cat, items[1..])
  }

  /** The mask after or-ing in, in order, the mask of every entry set to true. */
  function ItemsMask(cat: Catalogue, items: seq<Item>): Mask
    requires forall i :: 0 <= i < |items| ==> Known(cat, items[i])
  {
    if items == [] then {}
    else
      var last := items[|items| - 1];
      assert Known(cat, last);
      ItemsMask(cat, items[..|items| - 1]) + (if last.1 then OptionMask(cat, Upper(last.0)) else {})
  }

  /** A bit is set exactly when some entry set to true names the option
      that owns it; entries set to false contribute nothing. */
  lemma {:induction false} ItemsMaskBits(cat: Catalogue, items: seq<Item>, b: nat)
    requires forall i :: 0 <= i < |items| ==> Known(cat, items[i])
    ensures b in ItemsMask(cat, items) <==>
      exists i :: 0 <= i < |items| && items[i].1 && cat[Upper(items[i].0)] == b
  {
    if items != [] {
      var init := items[..|items| - 1];
      ItemsMaskBits(cat, init, b);
      if b in ItemsMask(cat, items) && b !in ItemsMask(cat, init) {
        assert items[|items| - 1].1 && cat[Upper(items[|items| - 1].0)] == b;
      }
      if exists i :: 0 <= i < |items| && items[i].1 && cat[Upper(items[i].0)] == b {
        var i :| 0 <= i < |items| && items[i].1 && cat[Upper(items[i].0)] == b;
        if i < |items| - 1 {
          assert init[i] == items[i];
        }
      }
    }
  }

  /** The debug record announcing that the option of `key` is enabled. */
  function Announcement(pluginId: Option<string>, key: string): LogRecord
  {
    var kw := LogKwargs(pluginId, Absent, Given(Some(1)));
    LogRecord(DEBUG, "Debug option DebugOption." + Upper(key) + " is set to True", kw.extra, kw.stacklevel)
  }

  /** The announcements for the entries set to true, in order. */
  function Announcements(pluginId: Option<string>, items: seq<Item>): seq<LogRecord>
  {
    if items == [] then []
    else
      var last := items[|items| - 1];
      Announcements(pluginId, items[..|items| - 1]) + (if last.1 then [Announcement(pluginId, last.0)] else [])
  }

  /** One announcement per entry set to true. */
  lemma {:induction false} AnnouncementsCount(pluginId: Option<string>, items: seq<Item>)
    ensures |Announcements(pluginId, items)| == |set i | 0 <= i < |items| && items[i].1|
  {
    if items != [] {
      var n := |items| - 1;
      var init := items[..n];
      AnnouncementsCount(pluginId, init);
      var before := set i | 0 <= i < n && init[i].1;
      var now := set i | 0 <= i < |items| && items[i].1;
      assert before == set i | 0 <= i < n && items[i].1;
      if items[n].1 {
        assert now == before + {n};
      } else {
        assert now == before;
      }
    }
  }
}
