/** The first-run setup wizard (components/SetupWizard.tsx): it collects
    the connection settings of a hosted backend and renders them as the
    text of a `.env` file, one `NAME=value` line per setting. */
module SetupWizard {
  import opened Text

  /** `'firebase' | 'supabase'`. */
  datatype BackendType = Firebase | Supabase {
    function Name(): string {
      match this
      case Firebase => "firebase"
      case Supabase => "supabase"
    }
  }

  /** A line of the file: the variable and the form key its value comes
      from. */
  datatype Field = Field(variable: string, key: string)

  /** The Firebase lines, in file order. */
  const FirebaseFields: seq<Field> := [
    Field("VITE_FIREBASE_API_KEY", "apiKey"),
    Field("VITE_FIREBASE_AUTH_DOMAIN", "authDomain"),
    Field("VITE_FIREBASE_PROJECT_ID", "projectId"),
    Field("VITE_FIREBASE_STORAGE_BUCKET", "storageBucket"),
    Field("VITE_FIREBASE_MESSAGING_SENDER_ID", "messagingSenderId"),
    Field("VITE_FIREBASE_APP_ID", "appId")
  ]

  /** The Supabase lines, in file order. */
  const SupabaseFields: seq<Field> := [
    Field("VITE_SUPABASE_URL", "supabaseUrl"),
    Field("VITE_SUPABASE_ANON_KEY", "supabaseKey")
  ]

  function Fields(b: BackendType): seq<Field>
  {
    if b == Firebase then FirebaseFields else SupabaseFields
  }

  /** `formData[key] || ''`: a key never typed into and a cleared input
      both give the empty string. */
  function FormValue(form: map<string, string>, key: string): (v: string)
    ensures key !in form ==> v == ""
    ensures key in form ==> v == form[key]
  {
    if key in form then form[key] else ""
  }

  /** The first line names the backend. */
  function Header(b: BackendType): string
  {
    "VITE_BACKEND_TYPE=" + b.Name()
  }

  /** The reference description of the file: its lines, without their
      line breaks. */
  function EnvLines(b: BackendType, form: map<string, string>): seq<string>
  {
    [Header(b)] + seq(|Fields(b)|, k requires 0 <= k < |Fields(b)| =>
      Fields(b)[k].variable + "=" + FormValue(form, Fields(b)[k].key))
  }

  /** Lines each followed by a line break. */
  function Terminated(lines: seq<string>): string
  {
    if |lines| == 0 then "" else lines[0] + "\n" + Terminated(lines[1..])
  }

  lemma {:induction false} TerminatedAppend(lines: seq<string>, line: string)
    ensures Terminated(lines + [line]) == Terminated(lines) + line + "\n"
  {
    if |lines| > 0 {
      assert (lines + [line])[1..] == lines[1..] + [line];
      TerminatedAppend(lines[1..], line);
    }
  }

  /** Splitting terminated lines at the line breaks gives the lines and an
      empty piece after the last break, when no line holds a break. */
  lemma {:induction false} TerminatedSplit(lines: seq<string>)
    requires forall k :: 0 <= k < |lines| ==> '\n' !in lines[k]
    ensures Split(Terminated(lines), '\n') == lines + [""]
  {
    if |lines| > 0 {
      TerminatedSplit(lines[1..]);
      SplitAtFirst(lines[0], '\n', Terminated(lines[1..]));
      assert Terminated(lines) == lines[0] + ['\n'] + Terminated(lines[1..]);
      assert lines == [lines[0]] + lines[1..];
    }
  }

  /** The form on screen. */
  class Wizard {
    var backendType: BackendType
    var formData: map<string, string>

    /** Firebase is selected first, and nothing has been typed. */
    constructor ()
      ensures backendType == Firebase && formData == map[]
    {
      backendType := Firebase;
      formData := map[];
    }

    /** The two backend buttons. */
    method SetBackendType(b: BackendType)
      modifies this`backendType
      ensures backendType == b
    {
      backendType := b;
    }

    /** `handleInputChange(key, value)`: sets the key, keeps every other. */
    method HandleInputChange(key: string, value: string)
      modifies this`formData
      ensures formData == old(formData)[key := value]
    {
      formData := formData[key := value];
    }

    /** `generateEnvFile()`: the header, then the selected backend's lines
      in order, each ended by a line break. */
    method GenerateEnvFile() returns (content: string)
      ensures content == Terminated(EnvLines(backendType, formData))
    {
      ghost var lines: seq<string> := [];
      var header := "VITE_BACKEND_TYPE=" + backendType.Name();
      content := header + "\n";
      TerminatedAppend(lines, header);
      lines := lines + [header];
      var fields := Fields(backendType);
      if backendType == Firebase {
        content := AppendLine(content, lines, fields[0].variable + "=" + FormValue(formData, "apiKey"));
        lines := lines + [fields[0].variable + "=" + FormValue(formData, "apiKey")];
        content := AppendLine(content, lines, fields[1].variable + "=" + FormValue(formData, "authDomain"));
        lines := lines + [fields[1].variable + "=" + FormValue(formData, "authDomain")];
        content := AppendLine(content, lines, fields[2].variable + "=" + FormValue(formData, "projectId"));
        lines := lines + [fields[2].variable + "=" + FormValue(formData, "projectId")];
        content := AppendLine(content, lines, fields[3].variable + "=" + FormValue(formData, "storageBucket"));
        lines := lines + [fields[3].variable + "=" + FormValue(formData, "storageBucket")];
        content := AppendLine(content, lines, fields[4].variable + "=" + FormValue(formData, "messagingSenderId"));
        lines := lines + [fields[4].variable + "=" + FormValue(formData, "messagingSenderId")];
        content := AppendLine(content, lines, fields[5].variable + "=" + FormValue(formData, "appId"));
        lines := lines + [fields[5].variable + "=" + FormValue(formData, "appId")];
        FirebaseLinesListed(formData);
      } else {
        content := AppendLine(content, lines, fields[0].variable + "=" + FormValue(formData, "supabaseUrl"));
        lines := lines + [fields[0].variable + "=" + FormValue(formData, "supabaseUrl")];
        content := AppendLine(content, lines, fields[1].variable + "=" + FormValue(formData, "supabaseKey"));
        lines := lines + [fields[1].variable + "=" + FormValue(formData, "supabaseKey")];
        SupabaseLinesListed(formData);
      }
      assert lines == EnvLines(backendType, formData);
    }
  }

  /** The Firebase file's lines, one by one. */
  lemma FirebaseLinesListed(form: map<string, string>)
    ensures EnvLines(Firebase, form) == [Header(Firebase),
      FirebaseFields[0].variable + "=" + FormValue(form, "apiKey"),
      FirebaseFields[1].variable + "=" + FormValue(form, "authDomain"),
      FirebaseFields[2].variable + "=" + FormValue(form, "projectId"),
      FirebaseFields[3].variable + "=" + FormValue(form, "storageBucket"),
      FirebaseFields[4].variable + "=" + FormValue(form, "messagingSenderId"),
      FirebaseFields[5].variable + "=" + FormValue(form, "appId")]
  {
  }

  /** The Supabase file's lines, one by one. */
  lemma SupabaseLinesListed(form: map<string, string>)
    ensures EnvLines(Supabase, form) == [Header(Supabase),
      SupabaseFields[0].variable + "=" + FormValue(form, "supabaseUrl"),
      SupabaseFields[1].variable + "=" + FormValue(form, "supabaseKey")]
  {
  }

  /** `content += line + '\n'`, keeping track of the lines written. */
  method AppendLine(content: string, ghost lines: seq<string>, line: string) returns (next: string)
    requires content == Terminated(lines)
    ensures next == Terminated(lines + [line])
  {
    TerminatedAppend(lines, line);
    next := content + line + "\n";
  }

  /** `isFormValid`: Firebase needs an API key and a project id, Supabase
      a URL and a key; a cleared input counts as missing. */
  function IsFormValid(b: BackendType, form: map<string, string>): (valid: bool)
    ensures valid <==> forall k :: k in RequiredKeys(b) ==> k in form && form[k] != ""
  {
    if b == Firebase then FormValue(form, "apiKey") != "" && FormValue(form, "projectId") != ""
    else FormValue(form, "supabaseUrl") != "" && FormValue(form, "supabaseKey") != ""
  }

  function RequiredKeys(b: BackendType): set<string>
  {
    if b == Firebase then {"apiKey", "projectId"} else {"supabaseUrl", "supabaseKey"}
  }

  /** The file has seven lines for Firebase and three for Supabase, the
      first naming the backend, and every line ends in a line break: split
      at the breaks, it gives its lines and nothing after the last break. */
  lemma EnvFileShape(b: BackendType, form: map<string, string>)
    requires forall k :: k in form ==> '\n' !in form[k]
    ensures |EnvLines(b, form)| == if b == Firebase then 7 else 3
    ensures EnvLines(b, form)[0] == "VITE_BACKEND_TYPE=" + b.Name()
    ensures Split(Terminated(EnvLines(b, form)), '\n') == EnvLines(b, form) + [""]
  {
    var lines := EnvLines(b, form);
    VariablesOnOneLine(b);
    forall k | 0 <= k < |lines| ensures '\n' !in lines[k] {
      if k > 0 {
        var f := Fields(b)[k - 1];
        assert lines[k] == f.variable + "=" + FormValue(form, f.key);
      }
    }
    TerminatedSplit(lines);
  }

  /** No variable name and no header holds a line break. */
  lemma VariablesOnOneLine(b: BackendType)
    ensures '\n' !in Header(b)
    ensures forall k :: 0 <= k < |Fields(b)| ==> '\n' !in Fields(b)[k].variable
  {
    if b == Firebase {
      assert '\n' !in "VITE_BACKEND_TYPE=firebase";
      FirebaseOnOneLine();
    } else {
      assert '\n' !in "VITE_BACKEND_TYPE=supabase";
      SupabaseOnOneLine();
    }
  }

  /** The literal checks are split in pairs: checked all in one proof they
      cost the solver many times more than apart. */
  lemma FirebaseOnOneLine()
    ensures forall k :: 0 <= k < |FirebaseFields| ==> '\n' !in FirebaseFields[k].variable
  {
    FirebaseLines01();
    FirebaseLines23();
    FirebaseLines45();
  }

  lemma FirebaseLines01()
    ensures '\n' !in "VITE_FIREBASE_API_KEY" && '\n' !in "VITE_FIREBASE_AUTH_DOMAIN"
  {
    assert '\n' !in "VITE_FIREBASE_API_KEY";
  }

  lemma FirebaseLines23()
    ensures '\n' !in "VITE_FIREBASE_PROJECT_ID" && '\n' !in "VITE_FIREBASE_STORAGE_BUCKET"
  {
    assert '\n' !in "VITE_FIREBASE_PROJECT_ID";
  }

  lemma FirebaseLines45()
    ensures '\n' !in "VITE_FIREBASE_MESSAGING_SENDER_ID" && '\n' !in "VITE_FIREBASE_APP_ID"
  {
    assert '\n' !in "VITE_FIREBASE_MESSAGING_SENDER_ID";
  }

  lemma SupabaseOnOneLine()
    ensures forall k :: 0 <= k < |SupabaseFields| ==> '\n' !in SupabaseFields[k].variable
  {
    assert '\n' !in "VITE_SUPABASE_URL";
    assert '\n' !in "VITE_SUPABASE_ANON_KEY";
  }

  /** Line `k + 1` carries the `k`-th variable of the backend, in the fixed
      order, with the typed value or nothing. */
  lemma EnvLineAt(b: BackendType, form: map<string, string>, k: nat)
    requires k < |Fields(b)|
    ensures EnvLines(b, form)[k + 1] == Fields(b)[k].variable + "=" + FormValue(form, Fields(b)[k].key)
  {
  }

  /** The file never mentions the other backend's variables: every
      Firebase line after the header begins `VITE_FIREBASE_`, every
      Supabase line `VITE_SUPABASE_`. */
  lemma OtherBackendAbsent(b: BackendType, form: map<string, string>, k: nat)
    requires 0 < k < |EnvLines(b, form)|
    ensures var line := EnvLines(b, form)[k];
            b == Firebase ==> |line| >= 14 && line[..14] == "VITE_FIREBASE_"
    ensures var line := EnvLines(b, form)[k];
            b == Supabase ==> |line| >= 14 && line[..14] == "VITE_SUPABASE_"
  {
    var f := Fields(b)[k - 1];
    var line := EnvLines(b, form)[k];
    assert line == f.variable + "=" + FormValue(form, f.key);
    VariablePrefix(b, k - 1);
    assert f.variable[..14] == line[..14];
  }

  /** Each backend's variable names share its prefix. */
  lemma VariablePrefix(b: BackendType, k: nat)
    requires k < |Fields(b)|
    ensures |Fields(b)[k].variable| >= 14
    ensures b == Firebase ==> Fields(b)[k].variable[..14] == "VITE_FIREBASE_"
    ensures b == Supabase ==> Fields(b)[k].variable[..14] == "VITE_SUPABASE_"
  {
    if b == Firebase {
      FirebasePrefix(k);
    } else {
      SupabasePrefix(k);
    }
  }

  /** Character by character, each Firebase name starts `VITE_FIREBASE_`. */
  lemma FirebasePrefix(k: nat)
    requires k < |FirebaseFields|
    ensures |FirebaseFields[k].variable| >= 14 && FirebaseFields[k].variable[..14] == "VITE_FIREBASE_"
  {
    var v := FirebaseFields[k].variable;
    forall i | 0 <= i < 14 ensures v[i] == "VITE_FIREBASE_"[i] {
    }
  }

  /** Character by character, each Supabase name starts `VITE_SUPABASE_`. */
  lemma SupabasePrefix(k: nat)
    requires k < |SupabaseFields|
    ensures |SupabaseFields[k].variable| >= 14 && SupabaseFields[k].variable[..14] == "VITE_SUPABASE_"
  {
    var v := SupabaseFields[k].variable;
    forall i | 0 <= i < 14 ensures v[i] == "VITE_SUPABASE_"[i] {
    }
  }

  /** On a valid form the lines of the required settings are not empty
      after the `=`. */
  lemma ValidFormFillsRequired(b: BackendType, form: map<string, string>)
    requires IsFormValid(b, form)
    ensures b == Firebase ==> EnvLines(b, form)[1] != "VITE_FIREBASE_API_KEY="
    ensures b == Firebase ==> EnvLines(b, form)[3] != "VITE_FIREBASE_PROJECT_ID="
    ensures b == Supabase ==> EnvLines(b, form)[1] != "VITE_SUPABASE_URL="
    ensures b == Supabase ==> EnvLines(b, form)[2] != "VITE_SUPABASE_ANON_KEY="
  {
    var lines := EnvLines(b, form);
    if b == Firebase {
      assert lines[1] == "VITE_FIREBASE_API_KEY=" + FormValue(form, "apiKey");
      assert lines[3] == "VITE_FIREBASE_PROJECT_ID=" + FormValue(form, "projectId");
      assert |lines[1]| > |"VITE_FIREBASE_API_KEY="|;
      assert |lines[3]| > |"VITE_FIREBASE_PROJECT_ID="|;
    } else {
      assert lines[1] == "VITE_SUPABASE_URL=" + FormValue(form, "supabaseUrl");
      assert lines[2] == "VITE_SUPABASE_ANON_KEY=" + FormValue(form, "supabaseKey");
      assert |lines[1]| > |"VITE_SUPABASE_URL="|;
      assert |lines[2]| > |"VITE_SUPABASE_ANON_KEY="|;
    }
  }
}
