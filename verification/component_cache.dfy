/** Cache bookkeeping of a component in data mode (packages/core/src/component-cache.ts, with load() and
    _apply_load_result() of component.ts): which key its data is filed under, and in what order results are applied.

    Data stands for its serialized text; that hydrated data serializes to the text it came from is what
    SerializerTheorems proves. */
module ComponentCache {
  import opened Options

  const EMPTY := "{}"

  datatype Kind = BootLoad | PlainLoad | Reload

  /** A load: the key of the args it fetches for, and the data its result will be compared with. */
  datatype Load = Load(kind: Kind, key: Option<string>, before: string)

  /** What on_load() or on_load_error() of load number `load` left: its text, None if it is not an object. */
  datatype Result = Result(load: nat, text: Option<string>)

  /** `key` is what generate_cache_key() gives for the current args, None for args that cannot be keyed;
      `cacheKey`, `dataKey` and `failed` are `_cache_key`, `_data_cache_key` and `_load_failed`. */
  datatype Inst = Inst(
    key: Option<string>,
    cacheKey: Option<string>,
    dataKey: Option<string>,
    data: string,
    failed: bool)

  /** A storage access; `given` is what a read hydrates the component with. */
  datatype Op = NoOp | Read(key: string, given: Option<string>) | Write(key: string, text: string)

  datatype After = After(inst: Inst, op: Op)

  /** Hydration from the entry, if there is one. */
  function Hydrated(c: Inst, key: string, given: Option<string>): After {
    After(if given.Some? then c.(data := given.value, dataKey := Some(key)) else c, Read(key, given))
  }

  function Entry(entries: map<string, string>, key: string): Option<string> {
    if key in entries then Some(entries[key]) else None
  }

  /** `read_cache_in_create()`; `skip` is skip_cache_read, or an element nobody can see. */
  function ReadInCreate(c: Inst, entries: map<string, string>, skip: bool): After {
    if c.key.None? then After(c, NoOp)
    else
      var keyed, k := c.(cacheKey := c.key), c.key.value;
      if skip then After(keyed, NoOp) else Hydrated(keyed, k, Entry(entries, k))
  }

  /** `check_cache_on_reload()`. */
  function CheckOnReload(c: Inst, entries: map<string, string>, argsChanged: bool, skip: bool): After {
    var keyed := c.(cacheKey := c.key);
    if !argsChanged || c.key.None? || c.failed || skip then After(keyed, NoOp)
    else
      var k := c.key.value;
      Hydrated(keyed, k, if Entry(entries, k) == Some(EMPTY) then None else Entry(entries, k))
  }

  /** A load begins: its key, and a reload's cache check. */
  function BeginLoad(c: Inst, entries: map<string, string>, kind: Kind, argsChanged: bool, skip: bool): After {
    match kind
    case BootLoad => After(c.(cacheKey := c.key), NoOp)
    case PlainLoad => After(c, NoOp)
    case Reload => CheckOnReload(c, entries, argsChanged, skip)
  }

  /** `write_cache_on_loaded()`, the data already applied. */
  function WriteOnLoaded(c: Inst, changed: bool, text: string): After {
    var moved := !changed && c.dataKey.Some? && c.cacheKey.Some? && c.cacheKey != c.dataKey;
    var dynamic := (changed && text != EMPTY) || moved;
    var unfiled := if changed then c.(dataKey := None) else c;
    if !dynamic || c.cacheKey.None? || c.failed then After(unfiled, NoOp)
    else After(unfiled.(dataKey := c.cacheKey), Write(c.cacheKey.value, text))
  }

  /** What load() does with its result, the data already applied. */
  function WriteOnLoad(c: Inst, changed: bool, text: string): After {
    if !changed then After(c, NoOp)
    else if !c.failed && c.key.Some? then After(c.(dataKey := c.key), Write(c.key.value, text))
    else After(c.(dataKey := None), NoOp)
  }

  /** Applying what a load left.  load() does so at once, boot and reload() when it is their turn. */
  function Applied(c: Inst, load: Load, text: string): After {
    var d := c.(data := text);
    if load.kind.PlainLoad? then WriteOnLoad(d, load.before != text, text)
    else WriteOnLoaded(d, load.before != text, text)
  }

  /** A result that is no object throws, before anything is touched. */
  function AppliedIf(c: Inst, load: Load, text: Option<string>): After {
    if text.Some? then Applied(c, load, text.value) else After(c, NoOp)
  }

  /** One component: each method runs from one await to the next. */
  class CacheFields {
    var key: Option<string>
    var cacheKey: Option<string>
    var dataKey: Option<string>
    var data: string
    var failed: bool
    var loadSeq: nat               // _load_seq: how many loads have begun
    var waiting: seq<Result>       // results that wait for their turn in _load_queue
    var applying: bool             // the on_loaded() of the last result applied still runs

    ghost function Abs(): Inst
      reads this
    {
      Inst(key, cacheKey, dataKey, data, failed)
    }

    constructor (key: Option<string>, data: string)
      ensures Abs() == Inst(key, None, None, data, false) && loadSeq == 0 && waiting == [] && !applying
    {
      this.key, cacheKey, dataKey, this.data, failed := key, None, None, data, false;
      loadSeq, waiting, applying := 0, [], false;
    }

    method ReadCacheInCreate(entries: map<string, string>, skip: bool) returns (op: Op)
      modifies this`cacheKey, this`dataKey, this`data
      ensures After(Abs(), op) == ReadInCreate(old(Abs()), entries, skip)
    {
      if key == None { return NoOp; }
      cacheKey := key;
      if skip { return NoOp; }
      if key.value in entries {
        data := entries[key.value];
        dataKey := key;
      }
      op := Read(key.value, Entry(entries, key.value));
    }

    method CheckCacheOnReload(entries: map<string, string>, argsChanged: bool, skip: bool) returns (op: Op)
      modifies this`cacheKey, this`dataKey, this`data
      ensures After(Abs(), op) == CheckOnReload(old(Abs()), entries, argsChanged, skip)
    {
      cacheKey := key;
      if !argsChanged || key == None || failed || skip { return NoOp; }
      op := Read(key.value, None);
      if key.value in entries && entries[key.value] != EMPTY {
        data := entries[key.value];
        dataKey := key;
        op := Read(key.value, Some(data));
      }
    }

    method WriteCacheOnLoaded(changed: bool, text: string) returns (op: Op)
      modifies this`dataKey
      ensures After(Abs(), op) == WriteOnLoaded(old(Abs()), changed, text)
    {
      var moved := !changed && dataKey != None && cacheKey != None && cacheKey != dataKey;
      var dynamic := (changed && text != EMPTY) || moved;
      if changed { dataKey := None; }
      if !dynamic || cacheKey == None || failed { return NoOp; }
      dataKey := cacheKey;
      op := Write(cacheKey.value, text);
    }

    /** The tail of load(): its own write, under the key of the args as they are now. */
    method FinishLoad(changed: bool, text: string) returns (op: Op)
      modifies this`dataKey
      ensures After(Abs(), op) == WriteOnLoad(old(Abs()), changed, text)
    {
      op := NoOp;
      if changed {
        dataKey := None;
        if !failed && key != None {
          op := Write(key.value, text);
          dataKey := key;
        }
      }
    }

    /** A load up to its on_load(): `n` is its number, `before` the data it begins with. */
    method StartLoad(entries: map<string, string>, kind: Kind, argsChanged: bool, skip: bool)
      returns (n: nat, before: string, op: Op)
      modifies this`cacheKey, this`dataKey, this`data, this`loadSeq
      ensures After(Abs(), op) == BeginLoad(old(Abs()), entries, kind, argsChanged, skip)
      ensures before == data && n == old(loadSeq) && loadSeq == n + 1
    {
      op := NoOp;
      match kind {
        case BootLoad => cacheKey := key;
        case PlainLoad =>
        case Reload => op := CheckCacheOnReload(entries, argsChanged, skip);
      }
      before, n := data, loadSeq;
      loadSeq := loadSeq + 1;
    }

    /** on_load() of load number `n` has ended: superseded, it is dropped; load() applies its result, boot and reload()
        queue theirs. */
    method OnLoadEnded(n: nat, load: Load, text: Option<string>) returns (op: Op)
      modifies this`dataKey, this`data, this`waiting
      ensures n + 1 != loadSeq ==> op == NoOp && Abs() == old(Abs()) && waiting == old(waiting)
      ensures n + 1 == loadSeq && load.kind.PlainLoad? ==>
              waiting == old(waiting) && After(Abs(), op) == AppliedIf(old(Abs()), load, text)
      ensures n + 1 == loadSeq && !load.kind.PlainLoad? ==>
              op == NoOp && Abs() == old(Abs()) && waiting == old(waiting) + [Result(n, text)]
    {
      op := NoOp;
      if n + 1 != loadSeq { return; }
      if load.kind != PlainLoad {
        waiting := waiting + [Result(n, text)];
      } else if text != None {
        data := text.value;
        op := FinishLoad(load.before != text.value, text.value);
      }
    }

    /** `_apply_load_result()` when its turn has come, up to on_loaded(); a result that is no object throws. */
    method TakeTurn(load: Load) returns (op: Op)
      requires waiting != [] && !applying && !load.kind.PlainLoad?
      modifies this`dataKey, this`data, this`waiting, this`applying
      ensures waiting == old(waiting[1..]) && applying == old(waiting[0]).text.Some?
      ensures After(Abs(), op) == AppliedIf(old(Abs()), load, old(waiting[0]).text)
    {
      var result := waiting[0];
      waiting := waiting[1..];
      op := NoOp;
      if result.text != None {
        data := result.text.value;
        op := WriteCacheOnLoaded(load.before != data, data);
        applying := true;
      }
    }

    /** on_loaded() is over, or has thrown: the next in the queue has its turn. */
    method EndTurn()
      modifies this`applying
      ensures !applying
    {
      applying := false;
    }
  }
}
