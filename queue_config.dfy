/**
 * The configuration of one named distributed queue: its capacity bound, its
 * synchronous and asynchronous backup counts, its item-listener
 * registrations, the compatibility rule between two declarations and its
 * fixed-order binary form (com.hazelcast.config.QueueConfig).
 */
module Config {
  import opened JavaTypes
  import opened Wrappers
  import opened DataFormat

  /** An item-listener registration; the queue configuration only stores and orders them. */
  type ItemListenerConfig

  /** The defaults a fresh configuration starts from. */
  const DefaultMaxSize: int32 := 0
  const DefaultSyncBackupCount: int32 := 1
  const DefaultAsyncBackupCount: int32 := 0

  /** `IllegalArgumentException`, thrown by setMaxSize for a negative size. */
  datatype ConfigError = IllegalArgument

  /**
   * The four scalar fields: exactly what the copy constructor copies and,
   * in this order, what writeData writes and readData reads.
   */
  datatype ScalarFields = ScalarFields(
    name: Option<JString>,
    syncBackupCount: int32,
    asyncBackupCount: int32,
    maxSize: int32)

  // -------------------------------------------------- read-time views

  /**
   * The capacity a reader sees for a stored raw size: the stored value 0
   * means "unbounded" and reads as `Integer.MAX_VALUE`.
   */
  function EffectiveMaxSize(raw: int32): (r: int32)
    ensures raw == 0 ==> r == IntMaxValue
    ensures r != 0
    ensures raw != 0 ==> r == raw
    ensures raw >= 0 ==> r > 0 && r >= raw
  {
    if raw == 0 then IntMaxValue else raw
  }

  /**
   * At read time the sentinel cannot be told apart from an explicit
   * `Integer.MAX_VALUE`; those two raw values, and only those, collide.
   */
  lemma EffectiveMaxSizeCollisions(a: int32, b: int32)
    ensures EffectiveMaxSize(a) == EffectiveMaxSize(b) <==>
            a == b || ({a, b} == {0, IntMaxValue})
  {
  }

  /**
   * The total backup count as a Java `int` sum of the two counts: congruent
   * to the exact sum modulo 2^32, and equal to it whenever it fits.
   */
  function TotalBackupCount(sync: int32, async: int32): (r: int32)
    ensures (r as int - (sync as int + async as int)) % Int32Modulus == 0
    ensures IntMinValue as int <= sync as int + async as int <= IntMaxValue as int ==>
            r as int == sync as int + async as int
  {
    Wrap32(sync as int + async as int)
  }

  /** With no validation on the setters, two large counts add up to a negative total. */
  lemma TotalBackupCountCanWrap()
    ensures TotalBackupCount(IntMaxValue, 1) == IntMinValue
  {
  }

  /**
   * The name comparison of isCompatible: a non-null name must `equals` the
   * other name (false for null); a null name matches only a null name.
   */
  function NullSafeNameEquals(a: Option<JString>, b: Option<JString>): (r: bool)
    ensures r <==> a == b
  {
    match a
    case Some(x) => b.Some? && b.value == x
    case None => b.None?
  }

  /** Name compatibility is an equivalence: reflexive, symmetric and transitive. */
  lemma NameCompatibilityIsEquivalence(a: Option<JString>, b: Option<JString>, c: Option<JString>)
    ensures NullSafeNameEquals(a, a)
    ensures NullSafeNameEquals(a, b) == NullSafeNameEquals(b, a)
    ensures NullSafeNameEquals(a, b) && NullSafeNameEquals(b, c) ==> NullSafeNameEquals(a, c)
  {
  }

  // ------------------------------------------------------- wire form

  /**
   * The bytes writeData emits: name (writeUTF), sync count, async count and
   * the RAW maxSize (writeInt each).  writeUTF's failures stop it before
   * anything is written.
   */
  function EncodeFields(f: ScalarFields): (r: Result<seq<byte>, StreamError>)
    ensures r.Success? <==> f.name.Some? && UtfLength(f.name.value) <= MaxUtfLength
    ensures f.name.None? ==> r == Failure(NullString)
    ensures r.Success? ==> |r.value| == 2 + UtfLength(f.name.value) + 12
    ensures r.Success? ==> r.value[|r.value| - 4..] == WriteInt(f.maxSize)
  {
    match WriteUTF(f.name)
    case Failure(e) => Failure(e)
    case Success(nameBytes) =>
      Success(nameBytes + WriteInt(f.syncBackupCount) + WriteInt(f.asyncBackupCount)
              + WriteInt(f.maxSize))
  }

  /**
   * What readData does to the fields `prior`: it assigns name, sync count,
   * async count and maxSize one after another, each straight from the
   * stream, so a failure part-way leaves the fields already read assigned.
   * Returns the new fields and the unread bytes or the failure.
   */
  function ReadFields(prior: ScalarFields, input: seq<byte>): (r: (ScalarFields, Result<seq<byte>, StreamError>))
    ensures ReadUTF(input).Failure? ==> r == (prior, Failure(ReadUTF(input).error))
    ensures ReadUTF(input).Success? ==> r.0.name == Some(ReadUTF(input).value.0)
    ensures r.1.Success? ==> |r.1.value| <= |input| - 14 && r.1.value == input[|input| - |r.1.value|..]
  {
    match ReadUTF(input)
    case Failure(e) => (prior, Failure(e))
    case Success((n, afterName)) =>
      var withName := prior.(name := Some(n));
      match ReadInt(afterName)
      case Failure(e) => (withName, Failure(e))
      case Success((sync, afterSync)) =>
        var withSync := withName.(syncBackupCount := sync);
        match ReadInt(afterSync)
        case Failure(e) => (withSync, Failure(e))
        case Success((async, afterAsync)) =>
          var withAsync := withSync.(asyncBackupCount := async);
          match ReadInt(afterAsync)
          case Failure(e) => (withAsync, Failure(e))
          case Success((max, afterMax)) => (withAsync.(maxSize := max), Success(afterMax))
  }

  /**
   * readData restores exactly the four fields writeData wrote, whatever the
   * reading object held before; the raw maxSize 0 stays 0.
   */
  lemma {:induction false} WireRoundTrip(f: ScalarFields, prior: ScalarFields, rest: seq<byte>)
    requires EncodeFields(f).Success?
    ensures ReadFields(prior, EncodeFields(f).value + rest) == (f, Success(rest))
  {
    var s := f.name.value;
    var nameBytes := WriteUTF(f.name).value;
    var ws, wa, wm := WriteInt(f.syncBackupCount), WriteInt(f.asyncBackupCount), WriteInt(f.maxSize);
    assert EncodeFields(f).value + rest == nameBytes + (ws + (wa + (wm + rest)));
    UtfRoundTrip(s, ws + (wa + (wm + rest)));
    IntRoundTrip(f.syncBackupCount, wa + (wm + rest));
    IntRoundTrip(f.asyncBackupCount, wm + rest);
    IntRoundTrip(f.maxSize, rest);
  }

  /**
   * readData is not all-or-nothing: when the stream ends after the name, the
   * name has been replaced and the three counts are left as they were.
   */
  lemma ReadDataKeepsPartialName(prior: ScalarFields, input: seq<byte>)
    requires ReadUTF(input).Success? && |ReadUTF(input).value.1| < 4
    ensures ReadFields(prior, input) ==
            (prior.(name := Some(ReadUTF(input).value.0)), Failure(EndOfStream))
  {
  }

  /**
   * readData bypasses setMaxSize's check: a negative size on the wire is
   * stored as it is, and then also reported as the capacity.
   */
  lemma {:induction false} ReadDataAcceptsNegativeMaxSize(f: ScalarFields, prior: ScalarFields)
    requires EncodeFields(f).Success? && f.maxSize < 0
    ensures ReadFields(prior, EncodeFields(f).value).1 == Success([])
    ensures ReadFields(prior, EncodeFields(f).value).0.maxSize == f.maxSize
    ensures EffectiveMaxSize(ReadFields(prior, EncodeFields(f).value).0.maxSize) < 0
  {
    WireRoundTrip(f, prior, []);
    assert EncodeFields(f).value + [] == EncodeFields(f).value;
  }

  // ---------------------------------------------------------- the class

  /** The mutable configuration object; every setter returns the object itself. */
  class QueueConfig {
    var name: Option<JString>
    /** Lazily created: None until the list is first asked for. */
    var listenerConfigs: Option<seq<ItemListenerConfig>>
    var syncBackupCount: int32
    var asyncBackupCount: int32
    /** The raw capacity; 0 is the "unbounded" sentinel. */
    var maxSize: int32

    /** The four scalar fields as a value. */
    function Scalars(): ScalarFields
      reads this
    {
      ScalarFields(name, syncBackupCount, asyncBackupCount, maxSize)
    }

    /** The listener registrations as any reader sees them: a null list reads as empty. */
    function ItemListeners(): seq<ItemListenerConfig>
      reads this
    {
      if listenerConfigs.Some? then listenerConfigs.value else []
    }

    /** The capacity invariant that setMaxSize enforces and readData does not. */
    predicate MaxSizeNonNegative()
      reads this
    {
      maxSize >= 0
    }

    /** A configuration with no name, the default counts and size, and no listener list. */
    constructor ()
      ensures Scalars() == ScalarFields(None, DefaultSyncBackupCount, DefaultAsyncBackupCount, DefaultMaxSize)
      ensures listenerConfigs == None && ItemListeners() == []
      ensures MaxSizeNonNegative()
    {
      name := None;
      listenerConfigs := None;
      syncBackupCount := DefaultSyncBackupCount;
      asyncBackupCount := DefaultAsyncBackupCount;
      maxSize := DefaultMaxSize;
    }

    /** The copy constructor: copies the scalar fields but not the listener registrations. */
    constructor Copy(config: QueueConfig)
      ensures Scalars() == config.Scalars()
      ensures listenerConfigs == None && ItemListeners() == []
      ensures config.MaxSizeNonNegative() ==> MaxSizeNonNegative()
    {
      name := config.name;
      listenerConfigs := None;
      syncBackupCount := config.syncBackupCount;
      asyncBackupCount := config.asyncBackupCount;
      maxSize := config.maxSize;
    }

    /** getMaxSize: the stored size, translated at read time. */
    method GetMaxSize() returns (r: int32)
      ensures r == EffectiveMaxSize(maxSize)
    {
      r := if maxSize == 0 then IntMaxValue else maxSize;
    }

    /** setMaxSize: rejects a negative size and changes nothing; otherwise stores it raw. */
    method SetMaxSize(size: int32) returns (r: Result<QueueConfig, ConfigError>)
      modifies this
      ensures size < 0 ==> r == Failure(IllegalArgument) && Scalars() == old(Scalars())
      ensures size >= 0 ==> r == Success(this) && Scalars() == old(Scalars()).(maxSize := size)
      ensures listenerConfigs == old(listenerConfigs)
      ensures old(MaxSizeNonNegative()) ==> MaxSizeNonNegative()
    {
      if size < 0 {
        return Failure(IllegalArgument);
      }
      maxSize := size;
      r := Success(this);
    }

    /** getTotalBackupCount: recomputed from the two counts on every call. */
    method GetTotalBackupCount() returns (r: int32)
      ensures r == TotalBackupCount(syncBackupCount, asyncBackupCount)
    {
      r := Wrap32(syncBackupCount as int + asyncBackupCount as int);
    }

    /** getSyncBackupCount: the stored count, with no translation. */
    method GetSyncBackupCount() returns (r: int32)
      ensures r == syncBackupCount
    {
      r := syncBackupCount;
    }

    /** setSyncBackupCount: stores any `int`, negative included, without a check. */
    method SetSyncBackupCount(count: int32) returns (self: QueueConfig)
      modifies this
      ensures self == this
      ensures Scalars() == old(Scalars()).(syncBackupCount := count)
      ensures listenerConfigs == old(listenerConfigs)
    {
      syncBackupCount := count;
      self := this;
    }

    /** getAsyncBackupCount: the stored count, with no translation. */
    method GetAsyncBackupCount() returns (r: int32)
      ensures r == asyncBackupCount
    {
      r := asyncBackupCount;
    }

    /** setAsyncBackupCount: stores any `int`, negative included, without a check. */
    method SetAsyncBackupCount(count: int32) returns (self: QueueConfig)
      modifies this
      ensures self == this
      ensures Scalars() == old(Scalars()).(asyncBackupCount := count)
      ensures listenerConfigs == old(listenerConfigs)
    {
      asyncBackupCount := count;
      self := this;
    }

    /** getName: the stored name, possibly null. */
    method GetName() returns (r: Option<JString>)
      ensures r == name
    {
      r := name;
    }

    /** setName: stores any name, null included. */
    method SetName(newName: Option<JString>) returns (self: QueueConfig)
      modifies this
      ensures self == this
      ensures Scalars() == old(Scalars()).(name := newName)
      ensures listenerConfigs == old(listenerConfigs)
    {
      name := newName;
      self := this;
    }

    /**
     * getItemListenerConfigs: creates the empty list on first use, then
     * returns the list; the scalar fields are not touched.
     */
    method GetItemListenerConfigs() returns (r: seq<ItemListenerConfig>)
      modifies this
      ensures r == old(ItemListeners())
      ensures listenerConfigs == Some(r)
      ensures Scalars() == old(Scalars())
    {
      if listenerConfigs.None? {
        listenerConfigs := Some([]);
      }
      r := listenerConfigs.value;
    }

    /** addItemListenerConfig: appends at the end of the (lazily created) list. */
    method AddItemListenerConfig(listenerConfig: ItemListenerConfig) returns (self: QueueConfig)
      modifies this
      ensures self == this
      ensures listenerConfigs == Some(old(ItemListeners()) + [listenerConfig])
      ensures ItemListeners() == old(ItemListeners()) + [listenerConfig]
      ensures Scalars() == old(Scalars())
    {
      var current := GetItemListenerConfigs();
      listenerConfigs := Some(current + [listenerConfig]);
      self := this;
    }

    /** setItemListenerConfigs: replaces the whole list; a null list reads as empty again. */
    method SetItemListenerConfigs(configs: Option<seq<ItemListenerConfig>>)
      modifies this
      ensures listenerConfigs == configs
      ensures ItemListeners() == if configs.Some? then configs.value else []
      ensures Scalars() == old(Scalars())
    {
      listenerConfigs := configs;
    }

    /**
     * isCompatible: false against null, otherwise null-safe equality of the
     * names; counts, size and listeners play no part.
     */
    method IsCompatible(other: QueueConfig?) returns (r: bool)
      ensures r <==> other != null && name == other.name
    {
      if other == null {
        return false;
      }
      r := NullSafeNameEquals(name, other.name);
    }

    /** writeData: the bytes of the four scalar fields in wire order. */
    method WriteData() returns (r: Result<seq<byte>, StreamError>)
      ensures r == EncodeFields(Scalars())
    {
      var nameBytes := WriteUTF(name);
      if nameBytes.Failure? {
        return Failure(nameBytes.error);
      }
      r := Success(nameBytes.value + WriteInt(syncBackupCount) + WriteInt(asyncBackupCount)
                   + WriteInt(maxSize));
    }

    /**
     * readData: assigns name, sync count, async count and maxSize in turn
     * from the stream, stopping at the first failure.  Returns the bytes
     * left unread.  The listener list is not part of the wire form.
     */
    method ReadData(input: seq<byte>) returns (r: Result<seq<byte>, StreamError>)
      modifies this
      ensures (Scalars(), r) == ReadFields(old(Scalars()), input)
      ensures listenerConfigs == old(listenerConfigs)
    {
      var readName := ReadUTF(input);
      if readName.Failure? {
        return Failure(readName.error);
      }
      name := Some(readName.value.0);
      var readSync := ReadInt(readName.value.1);
      if readSync.Failure? {
        return Failure(readSync.error);
      }
      syncBackupCount := readSync.value.0;
      var readAsync := ReadInt(readSync.value.1);
      if readAsync.Failure? {
        return Failure(readAsync.error);
      }
      asyncBackupCount := readAsync.value.0;
      var readMax := ReadInt(readAsync.value.1);
      if readMax.Failure? {
        return Failure(readMax.error);
      }
      maxSize := readMax.value.0;
      r := Success(readMax.value.1);
    }
  }
}
