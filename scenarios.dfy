/**
 * What a caller of the queue configuration can rely on, derived from the
 * class contracts and the lemmas about the specification functions: each
 * method builds fresh configurations, drives them through the public
 * operations and reports what it observed.
 */
module ConfigUsage {
  import opened JavaTypes
  import opened Wrappers
  import opened DataFormat
  import opened Config

  /** A new configuration reads back the defaults and an empty listener list. */
  method NewConfigDefaults() returns (sync: int32, async: int32, total: int32, reportedMax: int32,
                                      listeners: seq<ItemListenerConfig>)
    ensures sync == 1 && async == 0 && total == 1
    ensures reportedMax == IntMaxValue
    ensures listeners == []
  {
    var config := new QueueConfig();
    sync := config.GetSyncBackupCount();
    async := config.GetAsyncBackupCount();
    total := config.GetTotalBackupCount();
    reportedMax := config.GetMaxSize();
    listeners := config.GetItemListenerConfigs();
  }

  /**
   * Setting a size and reading it back: a negative size is refused and the
   * default (unbounded) stays; 0 reads as `Integer.MAX_VALUE`; any positive
   * size reads back unchanged.
   */
  method SetThenGetMaxSize(size: int32) returns (accepted: bool, reported: int32)
    ensures accepted <==> size >= 0
    ensures size > 0 ==> reported == size
    ensures size <= 0 ==> reported == IntMaxValue
  {
    var config := new QueueConfig();
    var outcome := config.SetMaxSize(size);
    accepted := outcome.Success?;
    reported := config.GetMaxSize();
  }

  /**
   * Any two counts are stored as given and the total is their Java `int`
   * sum: the exact sum whenever it fits.
   */
  method SetBackupCountsThenTotal(sync: int32, async: int32) returns (storedSync: int32, storedAsync: int32,
                                                                     total: int32)
    ensures storedSync == sync && storedAsync == async
    ensures total == TotalBackupCount(sync, async)
    ensures IntMinValue as int <= sync as int + async as int <= IntMaxValue as int ==>
            total as int == sync as int + async as int
  {
    var config := new QueueConfig();
    var self := config.SetSyncBackupCount(sync);
    self := config.SetAsyncBackupCount(async);
    storedSync := config.GetSyncBackupCount();
    storedAsync := config.GetAsyncBackupCount();
    total := config.GetTotalBackupCount();
  }

  /**
   * Listeners are kept in registration order, and registering them leaves
   * the capacity alone (a refused negative size leaves the default 0).
   */
  method RegisterListenersInOrder(first: ItemListenerConfig, second: ItemListenerConfig, size: int32)
    returns (listeners: seq<ItemListenerConfig>, reportedMax: int32)
    ensures listeners == [first, second]
    ensures reportedMax == EffectiveMaxSize(if size < 0 then DefaultMaxSize else size)
  {
    var config := new QueueConfig();
    var outcome := config.SetMaxSize(size);
    var self := config.AddItemListenerConfig(first);
    self := config.AddItemListenerConfig(second);
    listeners := config.GetItemListenerConfigs();
    reportedMax := config.GetMaxSize();
  }

  /**
   * A copy agrees with its original on the scalar fields and is compatible
   * with it, but starts without the original's listeners.
   */
  method CopyDropsListeners(queueName: JString, sync: int32, listener: ItemListenerConfig)
    returns (copied: ScalarFields, original: ScalarFields, copyListeners: seq<ItemListenerConfig>,
             originalListeners: seq<ItemListenerConfig>, compatible: bool)
    ensures copied == original
    ensures copied == ScalarFields(Some(queueName), sync, DefaultAsyncBackupCount, DefaultMaxSize)
    ensures copyListeners == [] && originalListeners == [listener]
    ensures compatible
  {
    var config := new QueueConfig();
    var self := config.SetName(Some(queueName));
    self := config.SetSyncBackupCount(sync);
    self := config.AddItemListenerConfig(listener);
    var copy := new QueueConfig.Copy(config);
    copied := copy.Scalars();
    original := config.Scalars();
    copyListeners := copy.GetItemListenerConfigs();
    originalListeners := config.GetItemListenerConfigs();
    compatible := copy.IsCompatible(config);
  }

  /**
   * Two declarations of the same name are compatible however their counts,
   * sizes and listeners differ; a declaration is never compatible with null,
   * and unnamed declarations are compatible with each other only.
   */
  method CompatibilityIgnoresSettings(queueName: JString, sync: int32, listener: ItemListenerConfig)
    returns (sameName: bool, againstNull: bool, unnamedPair: bool, namedVsUnnamed: bool)
    ensures sameName
    ensures !againstNull
    ensures unnamedPair
    ensures !namedVsUnnamed
  {
    var first := new QueueConfig();
    var self := first.SetName(Some(queueName));
    var second := new QueueConfig();
    self := second.SetName(Some(queueName));
    self := second.SetSyncBackupCount(sync);
    var outcome := second.SetMaxSize(7);
    self := second.AddItemListenerConfig(listener);
    sameName := first.IsCompatible(second);
    againstNull := first.IsCompatible(null);
    var unnamed := new QueueConfig();
    var otherUnnamed := new QueueConfig();
    unnamedPair := unnamed.IsCompatible(otherUnnamed);
    namedVsUnnamed := first.IsCompatible(unnamed);
  }

  /**
   * Shipping a configuration to another member: what one object writes,
   * a fresh object reads back field for field, the raw size 0 included.
   */
  method TransferOverWire(queueName: JString, sync: int32, async: int32, size: int32)
    returns (received: ScalarFields)
    requires UtfLength(queueName) <= MaxUtfLength
    ensures received == ScalarFields(Some(queueName), sync, async, if size < 0 then 0 else size)
  {
    var sender := new QueueConfig();
    var self := sender.SetName(Some(queueName));
    self := sender.SetSyncBackupCount(sync);
    self := sender.SetAsyncBackupCount(async);
    var outcome := sender.SetMaxSize(size);
    var bytes := sender.WriteData();
    var receiver := new QueueConfig();
    WireRoundTrip(sender.Scalars(), receiver.Scalars(), []);
    assert bytes.value + [] == bytes.value;
    var unread := receiver.ReadData(bytes.value);
    received := receiver.Scalars();
  }

  /** Writing a configuration without a name fails before any byte is produced. */
  method WriteUnnamedFails() returns (r: Result<seq<byte>, StreamError>)
    ensures r == Failure(NullString)
  {
    var config := new QueueConfig();
    r := config.WriteData();
  }
}
