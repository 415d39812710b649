/**
 * Cora's generic records, as far as the Solr layer sees them. The indexer
 * receives a record of the data library and converts it to JSON; a search
 * parses stored JSON into a record of the bookkeeper library, a different
 * class. The converters are outside the model: each side's record is
 * represented by the JSON text it was written as or read from, and nothing
 * here relates the two classes.
 */
module CoraData {

  /** A record of the data library (se.uu.ub.cora.data), as the indexer receives it. */
  datatype DataGroup = DataGroup(asJson: string)

  /** A record of the bookkeeper library (se.uu.ub.cora.bookkeeper.data), as a search returns it. */
  datatype BookkeeperDataGroup = BookkeeperDataGroup(parsedFrom: string)

  /** The DataToJsonConverter's output for a record. */
  function ConvertDataGroupToJsonString(dataGroup: DataGroup): string {
    dataGroup.asJson
  }

  /** The record the JSON parser and JsonToDataConverter build from `json`. */
  function ConvertJsonStringToDataGroup(json: string): BookkeeperDataGroup {
    BookkeeperDataGroup(json)
  }
}
