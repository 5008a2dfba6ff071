/** The fixed, in-memory user directory seeded at start-up. No handler writes to it:
    it is a constant, so every transition leaves its keys and records as they were. */
module Directory {
  import opened Json

  datatype UserRecord = UserRecord(
    password: string,
    isAdmin: bool,
    email: string,
    fullName: string,
    department: string,
    role: string)

  const Users: map<string, UserRecord> := map[
    "user1" := UserRecord("password123", false, "alice.johnson@company.com", "Alice Johnson", "Sales", "user"),
    "user2" := UserRecord("password456", false, "bob.smith@company.com", "Bob Smith", "Marketing", "user"),
    "admin" := UserRecord("4dminTheB3st!", true, "admin@company.com", "Admin User", "IT", "admin"),
    "manager" := UserRecord("ohMyGodYouGotMe", false, "manager@company.com", "Manager User", "HR", "manager")
  ]

  /** The directory has four entries, and "admin" is the only one with administrator rights. */
  lemma DirectoryShape()
    ensures Users.Keys == {"user1", "user2", "admin", "manager"}
    ensures |Users.Keys| == 4
    ensures forall k :: k in Users ==> (Users[k].isAdmin <==> k == "admin")
  {
    assert Users.Keys == {"user1", "user2", "admin", "manager"};
  }

  /** Every directory name is a comma-free word with a letter in it, so no number, boolean,
      null or plain object spells it when converted with String(). */
  lemma DirectoryNamesAreWords(k: string)
    requires k in Users
    ensures ',' !in k && k != "null" && k != "true" && k != "false" && k != "[object Object]"
    ensures 0 < |k| && !IsDigit(k[0]) && k[0] != '-'
  {
    DirectoryShape();
  }

  /** Every directory password is a non-empty string, so it passes the falsy check. */
  lemma PasswordsAreNonEmpty(k: string)
    requires k in Users
    ensures Users[k].password != ""
  {
    DirectoryShape();
  }

  /** One record as it is serialised in the admin listing: every field, password included. */
  function RecordJson(r: UserRecord): Json
  {
    Obj(map[
      "password" := Str(r.password),
      "isAdmin" := Bool(r.isAdmin),
      "email" := Str(r.email),
      "fullName" := Str(r.fullName),
      "department" := Str(r.department),
      "role" := Str(r.role)])
  }

  /** The whole directory as the admin listing serialises it. */
  function UsersJson(): Json
  {
    Obj(map k | k in Users :: RecordJson(Users[k]))
  }

  /** Each entry of the listing shows the record's password and administrator flag. */
  lemma ListedRecord(k: string)
    requires k in Users
    ensures UsersJson().fields[k].fields["password"] == Str(Users[k].password)
    ensures UsersJson().fields[k].fields["isAdmin"] == Bool(Users[k].isAdmin)
  {
  }
}
