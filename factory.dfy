/**
 * The database connection factory: DatabaseFactory::createDatabase maps a
 * type name to one of three connection classes, each of which renders fixed
 * `connect()` and `execute(query)` lines.
 */
module Factory {
  import opened Wrappers

  /** The three concrete Database classes. */
  datatype Database = MySQL | PostgreSQL | MongoDB

  /** The type name under which the factory produces each connection class. */
  function TypeName(db: Database): string
  {
    match db
    case MySQL => "MySQL"
    case PostgreSQL => "PostgreSQL"
    case MongoDB => "MongoDB"
  }

  /**
   * DatabaseFactory::createDatabase: exact, case-sensitive, whole-string
   * comparison against each type name in turn; None is the null pointer.
   */
  function CreateDatabase(typeName: string): (r: Option<Database>)
    ensures r.Some? ==> TypeName(r.value) == typeName
    ensures r.None? ==> forall db :: TypeName(db) != typeName
  {
    if typeName == "MySQL" then Some(MySQL)
    else if typeName == "PostgreSQL" then Some(PostgreSQL)
    else if typeName == "MongoDB" then Some(MongoDB)
    else None
  }

  /** The line `connect()` writes, newline included. */
  function Connect(db: Database): (line: string)
    ensures line == "Connected to " + TypeName(db) + "\n"
  {
    match db
    case MySQL => "Connected to MySQL\n"
    case PostgreSQL => "Connected to PostgreSQL\n"
    case MongoDB => "Connected to MongoDB\n"
  }

  /** The line `execute(query)` writes, newline included. */
  function Execute(db: Database, query: string): (line: string)
    ensures line == TypeName(db) + " executing: " + query + "\n"
  {
    match db
    case MySQL =>
      assert "MySQL executing: " == TypeName(db) + " executing: ";
      "MySQL executing: " + query + "\n"
    case PostgreSQL =>
      assert "PostgreSQL executing: " == TypeName(db) + " executing: ";
      "PostgreSQL executing: " + query + "\n"
    case MongoDB =>
      assert "MongoDB executing: " == TypeName(db) + " executing: ";
      "MongoDB executing: " + query + "\n"
  }

  /** The factory yields a connection class exactly when given that class's type name. */
  lemma CreateDatabaseExactly(typeName: string, db: Database)
    ensures CreateDatabase(typeName) == Some(db) <==> typeName == TypeName(db)
  {
  }

  /** Any string that is not one of the three names, whatever its case, yields null. */
  lemma CreateDatabaseRejectsOthers(typeName: string)
    ensures CreateDatabase(typeName).None? <==>
            typeName != "MySQL" && typeName != "PostgreSQL" && typeName != "MongoDB"
  {
  }

  /** The empty string and case variants of the names are not recognised. */
  lemma CreateDatabaseIsCaseSensitive()
    ensures CreateDatabase("").None?
    ensures CreateDatabase("mysql").None? && CreateDatabase("MYSQL").None?
    ensures CreateDatabase("postgresql").None? && CreateDatabase("Postgresql").None?
    ensures CreateDatabase("mongodb").None? && CreateDatabase("MongoDb").None?
  {
  }

  /** A connection made from a type name announces that same name when it connects. */
  lemma ProductAnnouncesItsTypeName(typeName: string)
    requires CreateDatabase(typeName).Some?
    ensures Connect(CreateDatabase(typeName).value) == "Connected to " + typeName + "\n"
    ensures forall q :: Execute(CreateDatabase(typeName).value, q) == typeName + " executing: " + q + "\n"
  {
  }

  /** The first two characters of the type names already tell the classes apart. */
  lemma TypeNamePrefixesDiffer(db1: Database, db2: Database)
    ensures |TypeName(db1)| >= 2 && |TypeName(db2)| >= 2
    ensures TypeName(db1)[..2] == TypeName(db2)[..2] ==> db1 == db2
  {
    if db1 != db2 {
      // PostgreSQL differs from the others at index 0, MySQL and MongoDB at index 1.
      assert TypeName(db1)[0] != TypeName(db2)[0] || TypeName(db1)[1] != TypeName(db2)[1];
      assert TypeName(db1)[..2][0] == TypeName(db1)[0] && TypeName(db1)[..2][1] == TypeName(db1)[1];
      assert TypeName(db2)[..2][0] == TypeName(db2)[0] && TypeName(db2)[..2][1] == TypeName(db2)[1];
    }
  }

  /** The `execute` line determines both the connection class and the query. */
  lemma {:induction false} ExecuteDeterminesClassAndQuery(db1: Database, q1: string, db2: Database, q2: string)
    requires Execute(db1, q1) == Execute(db2, q2)
    ensures db1 == db2 && q1 == q2
  {
    var line := Execute(db1, q1);
    TypeNamePrefixesDiffer(db1, db2);
    assert line[..2] == TypeName(db1)[..2];
    assert line[..2] == TypeName(db2)[..2];
    var n := |TypeName(db1)| + |" executing: "|;
    assert line[n..|line| - 1] == q1;
    assert line[n..|line| - 1] == q2;
  }

  /** The `connect` line determines the connection class. */
  lemma ConnectDeterminesClass(db1: Database, db2: Database)
    requires Connect(db1) == Connect(db2)
    ensures db1 == db2
  {
  }
}
