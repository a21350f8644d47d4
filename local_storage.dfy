/**
 * The browser's `localStorage` as a string map. Reads and writes fail
 * separately: when storage is disabled or blocked (a SecurityError in some
 * private modes) both `getItem` and `setItem` throw; when the quota is
 * exceeded only `setItem` throws and `getItem` still answers.
 */
module LocalStorage {
  import opened Wrappers

  /** The outcome of `localStorage.getItem(key)`. */
  datatype StorageRead = Threw | Missing | Found(value: string)

  class Store {
    var items: map<string, string>
    /** `getItem` throws. */
    var readsFail: bool
    /** `setItem` throws. */
    var writesFail: bool

    constructor (items: map<string, string>, readsFail: bool, writesFail: bool)
      ensures this.items == items && this.readsFail == readsFail && this.writesFail == writesFail
    {
      this.items := items;
      this.readsFail := readsFail;
      this.writesFail := writesFail;
    }

    /** `getItem(key)`. */
    function GetItem(key: string): (r: StorageRead)
      reads this
      ensures readsFail <==> r.Threw?
      ensures !readsFail ==> (r.Found? <==> key in items)
      ensures r.Found? ==> key in items && r.value == items[key]
    {
      if readsFail then Threw
      else if key in items then Found(items[key])
      else Missing
    }

    /** `setItem(key, value)`; returns whether it threw. */
    method SetItem(key: string, value: string) returns (threw: bool)
      modifies this`items
      ensures threw == writesFail
      ensures items == if writesFail then old(items) else old(items)[key := value]
    {
      if writesFail {
        return true;
      }
      items := items[key := value];
      return false;
    }
  }
}
