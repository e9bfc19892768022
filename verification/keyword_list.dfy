/** The keywords of SQL and their token codes, written out.  This list is what the hash tables are meant to
    encode; it uses none of them. */
module KeywordList {

  datatype Listed = Listed(word: string, code: nat)

  const N_LISTED := 124

  /** The list in rows of ten. */
  function ListedRow(r: nat): seq<Listed> {
    match r
    case 0 => [Listed("REINDEX", 93), Listed("INDEXED", 56), Listed("INDEX", 140), Listed("DESC", 70),
      Listed("ESCAPE", 42), Listed("EACH", 72), Listed("CHECK", 104), Listed("KEY", 79), Listed("BEFORE", 63),
      Listed("FOREIGN", 113)]
    case 1 => [Listed("FOR", 74), Listed("IGNORE", 75), Listed("REGEXP", 31), Listed("EXPLAIN", 2),
      Listed("INSTEAD", 77), Listed("ADD", 142), Listed("DATABASE", 69), Listed("AS", 24), Listed("SELECT", 119),
      Listed("TABLE", 16)]
    case 2 => [Listed("LEFT", 98), Listed("THEN", 138), Listed("END", 11), Listed("DEFERRABLE", 112),
      Listed("ELSE", 139), Listed("EXCEPT", 117), Listed("TRANSACTION", 6), Listed("ACTION", 58), Listed("ON", 107),
      Listed("NATURAL", 98)]
    case 3 => [Listed("ALTER", 141), Listed("RAISE", 83), Listed("EXCLUSIVE", 9), Listed("EXISTS", 20),
      Listed("SAVEPOINT", 13), Listed("INTERSECT", 118), Listed("TRIGGER", 88), Listed("REFERENCES", 105),
      Listed("CONSTRAINT", 99), Listed("INTO", 131)]
    case 4 => [Listed("OFFSET", 81), Listed("OF", 80), Listed("SET", 111), Listed("TEMPORARY", 21),
      Listed("TEMP", 21), Listed("OR", 27), Listed("UNIQUE", 103), Listed("QUERY", 3), Listed("WITHOUT", 25),
      Listed("WITH", 92)]
    case 5 => [Listed("OUTER", 98), Listed("RELEASE", 14), Listed("ATTACH", 62), Listed("HAVING", 128),
      Listed("GROUP", 127), Listed("UPDATE", 110), Listed("BEGIN", 5), Listed("INNER", 98), Listed("RECURSIVE", 84),
      Listed("BETWEEN", 32)]
    case 6 => [Listed("NOTNULL", 35), Listed("NOT", 19), Listed("NO", 78), Listed("NULL", 101), Listed("LIKE", 31),
      Listed("CASCADE", 65), Listed("ASC", 61), Listed("DELETE", 109), Listed("CASE", 136), Listed("COLLATE", 53)]
    case 7 => [Listed("CREATE", 17), Listed("CURRENT_DATE", 95), Listed("DETACH", 71), Listed("IMMEDIATE", 8),
      Listed("JOIN", 124), Listed("INSERT", 108), Listed("MATCH", 30), Listed("PLAN", 4), Listed("ANALYZE", 60),
      Listed("PRAGMA", 82)]
    case 8 => [Listed("ABORT", 57), Listed("VALUES", 120), Listed("VIRTUAL", 91), Listed("LIMIT", 129),
      Listed("WHEN", 137), Listed("WHERE", 130), Listed("RENAME", 94), Listed("AFTER", 59), Listed("REPLACE", 85),
      Listed("AND", 28)]
    case 9 => [Listed("DEFAULT", 100), Listed("AUTOINCREMENT", 106), Listed("TO", 15), Listed("IN", 33),
      Listed("CAST", 66), Listed("COLUMN", 67), Listed("COMMIT", 10), Listed("CONFLICT", 68), Listed("CROSS", 98),
      Listed("CURRENT_TIMESTAMP", 95)]
    case 10 => [Listed("CURRENT_TIME", 95), Listed("PRIMARY", 102), Listed("DEFERRED", 7), Listed("DISTINCT", 121),
      Listed("IS", 29), Listed("DROP", 114), Listed("FAIL", 73), Listed("FROM", 123), Listed("FULL", 98),
      Listed("GLOB", 31)]
    case 11 => [Listed("BY", 64), Listed("IF", 18), Listed("ISNULL", 34), Listed("ORDER", 126),
      Listed("RESTRICT", 86), Listed("RIGHT", 98), Listed("ROLLBACK", 12), Listed("ROW", 87), Listed("UNION", 115),
      Listed("USING", 125)]
    case _ => [Listed("VACUUM", 89), Listed("VIEW", 90), Listed("INITIALLY", 76), Listed("ALL", 116)]
  }

  function Keywords(i: nat): Listed
    requires i < N_LISTED
  {
    RowLength(i);
    ListedRow(i / 10)[i % 10]
  }

  lemma RowLength(i: nat)
    requires i < N_LISTED
    ensures i % 10 < |ListedRow(i / 10)|
  {
  }
}
