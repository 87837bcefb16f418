/** The device's unencrypted asynchronous key-value layer (AsyncStorage). */
module KeyValue {

  /**
   * One instance stands for the whole device store: the encrypted storage service, the
   * user-activity lists and the theme preference all read and write the same entries.
   */
  class KvStore {
    var entries: map<string, string>

    constructor (entries: map<string, string>)
      ensures this.entries == entries
    {
      this.entries := entries;
    }
  }
}
