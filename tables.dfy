/** The tables the pipeline passes between its stages, as rows of cells. */
module Tables {

  /** A CSV table: its header row and its data rows. */
  datatype Table = Table(header: seq<string>, rows: seq<seq<string>>)

  /** The name of the combined output (OUTPUT_CSV_NAME in config.py). */
  const OutputCsvName: string := "combined_data.csv"
}
