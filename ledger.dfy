/**
 The delivery ledger: the persisted set of delivery ids already pushed to
 the issue tracker. The backing file is modelled by its three observable
 states; JSON encoding and the file system calls are not modelled.
 */
module Ledger {

  /** The store file: not yet created, created but empty, or a JSON object of delivered ids. */
  datatype StoreFile = Absent | Blank | Json(ids: set<int>)

  /** The ids a store holds; a missing or empty store holds none. */
  function Stored(file: StoreFile): (ids: set<int>)
    ensures !file.Json? ==> ids == {}
  {
    if file.Json? then file.ids else {}
  }

  class DeliveryLedger {
    var file: StoreFile

    constructor (file: StoreFile)
      ensures this.file == file
    {
      this.file := file;
    }

    function Delivered(): set<int>
      reads this
    {
      Stored(file)
    }

    /** Whether an id is recorded as delivered; a missing store is created empty first. */
    method CheckLogId(id: int) returns (delivered: bool)
      modifies this
      ensures delivered <==> id in old(Delivered())
      ensures file == (if old(file).Absent? then Blank else old(file))
      ensures Delivered() == old(Delivered())
    {
      if file.Absent? {
        file := Blank;
      }
      var fileContent: set<int> := {};
      if file.Json? {
        fileContent := file.ids;
      }
      delivered := id in fileContent;
    }

    /** Records an id as delivered, keeping every id recorded before. */
    method SaveLogId(id: int)
      modifies this
      ensures file == Json(old(Delivered()) + {id})
      ensures id in Delivered() && old(Delivered()) <= Delivered()
    {
      if file.Absent? {
        file := Blank;
      }
      var fileContent: set<int> := {};
      if file.Json? {
        fileContent := file.ids;
      }
      fileContent := fileContent + {id};
      file := Json(fileContent);
    }
  }

}
