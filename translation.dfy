/** The one-off script that rewrites English error messages in source files
    into Portuguese: for each dictionary entry, in order, the message in
    double quotes and then in single quotes is replaced throughout the
    text, and the file is written back only when something changed.
    Reading and writing the file are parameters. */
module Translation {
  import opened Common

  /** `s.replace(pat, rep)`: left to right, non-overlapping; after a match
      the scan resumes behind it. */
  function Replace(s: string, pat: string, rep: string): (r: string)
    requires pat != []
    decreases |s|
  {
    if s == [] then []
    else if pat <= s then rep + Replace(s[|pat|..], pat, rep)
    else [s[0]] + Replace(s[1..], pat, rep)
  }

  /** Text without the pattern comes back unchanged. */
  lemma {:induction false} ReplaceAbsent(s: string, pat: string, rep: string)
    requires pat != [] && !IsSubstring(pat, s)
    ensures Replace(s, pat, rep) == s
    decreases |s|
  {
    if s != [] {
      ReplaceAbsent(s[1..], pat, rep);
    }
  }

  /** An occurrence at the front is replaced, and the scan goes on behind
      it. */
  lemma ReplaceAtFront(pat: string, rest: string, rep: string)
    requires pat != []
    ensures Replace(pat + rest, pat, rep) == rep + Replace(rest, pat, rep)
  {
    assert (pat + rest)[|pat|..] == rest;
  }

  /** A pattern holding a character the text lacks does not occur in it. */
  lemma {:induction false} MissingCharBlocks(pat: string, s: string, c: char)
    requires c in pat && c !in s
    ensures !IsSubstring(pat, s)
    decreases |s|
  {
    if s != [] {
      MissingCharBlocks(pat, s[1..], c);
    }
  }

  /** The dictionary, in its order: English message, Portuguese message. */
  const Translations: seq<(string, string)> := [
    ("Psychologist not found.", "Psicólogo não encontrado."),
    ("Duplicated e-mail, cpf or crp.", "E-mail, CPF ou CRP duplicado."),
    ("One or more specialties were not found.", "Uma ou mais especialidades não foram encontradas."),
    ("One or more approaches were not found.", "Uma ou mais abordagens não foram encontradas."),
    ("Cannot add an availability on a past date.", "Não é possível adicionar disponibilidade em uma data passada."),
    ("Specialty not found.", "Especialidade não encontrada."),
    ("Approach not found.", "Abordagem não encontrada."),
    ("Content not found", "Conteúdo não encontrado"),
    ("Only psychologists can create content", "Apenas psicólogos podem criar conteúdo"),
    ("Only the author can delete this content", "Apenas o autor pode deletar este conteúdo"),
    ("Only the author can update this content", "Apenas o autor pode atualizar este conteúdo"),
    ("Appointment not found", "Consulta não encontrada"),
    ("Appointment not found.", "Consulta não encontrada."),
    ("Not authorized to cancel this appointment.", "Não autorizado a cancelar esta consulta."),
    ("Not authorized to reschedule this appointment.", "Não autorizado a reagendar esta consulta."),
    ("Cannot reschedule to a past date.", "Não é possível reagendar para uma data passada."),
    ("User not found.", "Usuário não encontrado."),
    ("Failed to delete user.", "Falha ao deletar usuário."),
    ("Wrong e-mail or password", "E-mail ou senha incorretos"),
    ("File with key", "Arquivo com chave"),
    ("does not exist.", "não existe."),
    ("Failed to delete file", "Falha ao deletar arquivo"),
    ("Missing Authorization header", "Cabeçalho de Autorização ausente"),
    ("Invalid Authorization header format", "Formato do cabeçalho de Autorização inválido"),
    ("Invalid or expired token", "Token inválido ou expirado"),
    ("User not found", "Usuário não encontrado"),
    ("Invalid model type", "Tipo de modelo inválido"),
    ("Invalid entity type", "Tipo de entidade inválida")
  ]

  function DoubleQuoted(m: string): (r: string)
    ensures |r| == |m| + 2 && r[0] == '"' && r[1..|r| - 1] == m
  {
    "\"" + m + "\""
  }

  function SingleQuoted(m: string): (r: string)
    ensures |r| == |m| + 2 && r[0] == '\'' && r[1..|r| - 1] == m
  {
    "'" + m + "'"
  }

  /** One entry's two replacements. */
  function Step(s: string, entry: (string, string)): string {
    Replace(Replace(s, DoubleQuoted(entry.0), DoubleQuoted(entry.1)), SingleQuoted(entry.0), SingleQuoted(entry.1))
  }

  /** The entries applied in order. */
  function Run(s: string, entries: seq<(string, string)>): string
    decreases |entries|
  {
    if entries == [] then s else Step(Run(s, entries[..|entries| - 1]), entries[|entries| - 1])
  }

  /** The text after the whole dictionary. */
  function Translate(s: string): string {
    Run(s, Translations)
  }

  /** An entry whose quoted messages do not occur leaves the text alone. */
  lemma StepAbsent(s: string, entry: (string, string))
    requires !IsSubstring(DoubleQuoted(entry.0), s) && !IsSubstring(SingleQuoted(entry.0), s)
    ensures Step(s, entry) == s
  {
    ReplaceAbsent(s, DoubleQuoted(entry.0), DoubleQuoted(entry.1));
    ReplaceAbsent(s, SingleQuoted(entry.0), SingleQuoted(entry.1));
  }

  /** Text in which no entry's quoted message occurs is left alone by the
      whole run. */
  lemma {:induction false} RunAbsent(s: string, entries: seq<(string, string)>)
    requires forall k :: 0 <= k < |entries| ==>
      !IsSubstring(DoubleQuoted(entries[k].0), s) && !IsSubstring(SingleQuoted(entries[k].0), s)
    ensures Run(s, entries) == s
    decreases |entries|
  {
    if entries != [] {
      RunAbsent(s, entries[..|entries| - 1]);
      StepAbsent(s, entries[|entries| - 1]);
    }
  }

  /** Messages outside quotes are never touched: text with no quote
      character at all comes through unchanged. */
  lemma UnquotedUntouched(s: string)
    requires '"' !in s && '\'' !in s
    ensures Translate(s) == s
  {
    forall k | 0 <= k < |Translations|
      ensures !IsSubstring(DoubleQuoted(Translations[k].0), s) && !IsSubstring(SingleQuoted(Translations[k].0), s)
    {
      MissingCharBlocks(DoubleQuoted(Translations[k].0), s, '"');
      MissingCharBlocks(SingleQuoted(Translations[k].0), s, '\'');
    }
    RunAbsent(s, Translations);
  }

  /** A second run changes nothing exactly when it has nothing to match:
      if no quoted English message is left in the output, translating the
      output again gives the output. */
  lemma SecondRunUnchanged(s: string)
    requires forall k :: 0 <= k < |Translations| ==>
      !IsSubstring(DoubleQuoted(Translations[k].0), Translate(s)) &&
      !IsSubstring(SingleQuoted(Translations[k].0), Translate(s))
    ensures Translate(Translate(s)) == Translate(s)
  {
    RunAbsent(Translate(s), Translations);
  }

  /** Quotes belong to the pattern, so the key without the final period does
      not rewrite the literal that has it. */
  lemma PeriodKeepsLiteral()
    ensures Replace("\"Appointment not found.\"", DoubleQuoted("Appointment not found"),
                    DoubleQuoted("Consulta não encontrada")) == "\"Appointment not found.\""
  {
    var s := "\"Appointment not found.\"";
    var pat := DoubleQuoted("Appointment not found");
    assert !(pat <= s) by { assert s[22] != pat[22]; }
    assert !(pat <= s[1..]) by { assert s[1] != pat[0]; }
    assert |s[2..]| < |pat|;
    assert !IsSubstring(pat, s[2..]) by { ShortNoMatch(pat, s[2..]); }
    ReplaceAbsent(s, pat, DoubleQuoted("Consulta não encontrada"));
  }

  lemma {:induction false} ShortNoMatch(pat: string, s: string)
    requires |s| < |pat|
    ensures !IsSubstring(pat, s)
    decreases |s|
  {
    if s != [] {
      ShortNoMatch(pat, s[1..]);
    }
  }

  // ---- a second run is not always a no-op ----

  /** The characters used to tell the other English messages apart from
      "User not found": each of them holds at least one. */
  predicate Marked(c: char) {
    c == 'P' || c == 'D' || c == 'O' || c == 'C' || c == 'S' || c == 'A' || c == 'N' || c == 'F' ||
    c == 'W' || c == 'M' || c == 'I' || c == '.'
  }

  predicate Unmarked(s: string) {
    forall i :: 0 <= i < |s| ==> !Marked(s[i])
  }

  /** The index of "User not found" in the dictionary. */
  const UserNotFound: nat := 25

  lemma KeyMarked(k: nat)
    requires k < |Translations| && k != UserNotFound
    ensures exists i :: 0 <= i < |Translations[k].0| && Marked(Translations[k].0[i])
  {
    if k == 0 {
      assert Translations[0].0[0] == 'P';
    } else if k == 1 {
      assert Translations[1].0[0] == 'D';
    } else if k == 2 {
      assert Translations[2].0[0] == 'O';
    } else if k == 3 {
      assert Translations[3].0[0] == 'O';
    } else if k == 4 {
      assert Translations[4].0[0] == 'C';
    } else if k == 5 {
      assert Translations[5].0[0] == 'S';
    } else if k == 6 {
      assert Translations[6].0[0] == 'A';
    } else if k == 7 {
      assert Translations[7].0[0] == 'C';
    } else if k == 8 {
      assert Translations[8].0[0] == 'O';
    } else if k == 9 {
      assert Translations[9].0[0] == 'O';
    } else if k == 10 {
      assert Translations[10].0[0] == 'O';
    } else if k == 11 {
      assert Translations[11].0[0] == 'A';
    } else if k == 12 {
      assert Translations[12].0[0] == 'A';
    } else if k == 13 {
      assert Translations[13].0[0] == 'N';
    } else if k == 14 {
      assert Translations[14].0[45] == '.';
    } else if k == 15 {
      assert Translations[15].0[0] == 'C';
    } else if k == 16 {
      assert Translations[16].0[14] == '.';
    } else if k == 17 {
      assert Translations[17].0[0] == 'F';
    } else if k == 18 {
      assert Translations[18].0[0] == 'W';
    } else if k == 19 {
      assert Translations[19].0[0] == 'F';
    } else if k == 20 {
      assert Translations[20].0[14] == '.';
    } else if k == 21 {
      assert Translations[21].0[0] == 'F';
    } else if k == 22 {
      assert Translations[22].0[0] == 'M';
    } else if k == 23 {
      assert Translations[23].0[0] == 'I';
    } else if k == 24 {
      assert Translations[24].0[0] == 'I';
    } else if k == 26 {
      assert Translations[26].0[0] == 'I';
    } else if k == 27 {
      assert Translations[27].0[0] == 'I';
    }
  }

  /** Text without marked characters holds no other quoted message. */
  lemma OthersAbsent(s: string, k: nat)
    requires Unmarked(s) && k < |Translations| && k != UserNotFound
    ensures !IsSubstring(DoubleQuoted(Translations[k].0), s) && !IsSubstring(SingleQuoted(Translations[k].0), s)
  {
    KeyMarked(k);
    var key := Translations[k].0;
    var i :| 0 <= i < |key| && Marked(key[i]);
    assert DoubleQuoted(key)[i + 1] == key[i];
    assert SingleQuoted(key)[i + 1] == key[i];
    MissingCharBlocks(DoubleQuoted(key), s, key[i]);
    MissingCharBlocks(SingleQuoted(key), s, key[i]);
  }

  lemma {:induction false} RunSplit(s: string, a: seq<(string, string)>, b: seq<(string, string)>)
    ensures Run(s, a + b) == Run(Run(s, a), b)
    decreases |b|
  {
    if b == [] {
      assert a + b == a;
    } else {
      assert (a + b)[..|a + b| - 1] == a + b[..|b| - 1];
      RunSplit(s, a, b[..|b| - 1]);
    }
  }

  /** Replacing with something at least as long never shortens the text,
      and lengthens it when the pattern occurs and the replacement is
      strictly longer. */
  lemma {:induction false} ReplaceLength(s: string, pat: string, rep: string)
    requires pat != [] && |rep| >= |pat|
    ensures |Replace(s, pat, rep)| >= |s|
    ensures |rep| > |pat| && IsSubstring(pat, s) ==> |Replace(s, pat, rep)| > |s|
    decreases |s|
  {
    if s != [] {
      if pat <= s {
        ReplaceLength(s[|pat|..], pat, rep);
      } else {
        ReplaceLength(s[1..], pat, rep);
      }
    }
  }

  lemma {:induction false} RunLength(s: string, entries: seq<(string, string)>)
    requires forall k :: 0 <= k < |entries| ==> entries[k].0 != [] && |entries[k].1| >= |entries[k].0|
    ensures |Run(s, entries)| >= |s|
    decreases |entries|
  {
    if entries != [] {
      var e := entries[|entries| - 1];
      var before := Run(s, entries[..|entries| - 1]);
      RunLength(s, entries[..|entries| - 1]);
      ReplaceLength(before, DoubleQuoted(e.0), DoubleQuoted(e.1));
      ReplaceLength(Replace(before, DoubleQuoted(e.0), DoubleQuoted(e.1)), SingleQuoted(e.0), SingleQuoted(e.1));
    }
  }

  lemma {:induction false} SuffixOccurs(a: string, x: string)
    ensures IsSubstring(a, x + a)
    decreases |x|
  {
    if x != [] {
      assert (x + a)[1..] == x[1..] + a;
      SuffixOccurs(a, x[1..]);
    }
  }

  /** A file holding `"User not found"User not found"`. */
  const Sample: string := DoubleQuoted("User not found") + "User not found\""

  /** What one run makes of it: `"Usuário não encontrado"User not found"`. */
  const SampleOnce: string := DoubleQuoted("Usuário não encontrado") + "User not found\""

  /** The closing quote of one message can be read as the opening quote of
      the text behind it. */
  lemma QuoteShared(m: string, rest: string)
    ensures DoubleQuoted(m) + rest + "\"" == "\"" + m + DoubleQuoted(rest)
  {
    assert DoubleQuoted(m) + rest + "\"" == "\"" + m + ("\"" + rest + "\"");
  }

  lemma SampleOnceEnds()
    ensures SampleOnce == "\"Usuário não encontrado" + DoubleQuoted("User not found")
  {
    QuoteShared("Usuário não encontrado", "User not found");
  }

  lemma SampleUnmarked()
    ensures Unmarked(Sample) && Unmarked(SampleOnce)
    ensures '\'' !in Sample && '\'' !in SampleOnce
  {
    SampleClean();
    SampleOnceClean();
  }

  predicate Clean(s: string) {
    Unmarked(s) && '\'' !in s
  }

  lemma CleanConcat(a: string, b: string)
    requires Clean(a) && Clean(b)
    ensures Clean(a + b)
  {
    forall i | 0 <= i < |a + b|
      ensures !Marked((a + b)[i])
    {
      if i < |a| {
        assert (a + b)[i] == a[i];
      } else {
        assert (a + b)[i] == b[i - |a|];
      }
    }
  }

  lemma CleanQuoted(m: string)
    requires Clean(m)
    ensures Clean(DoubleQuoted(m))
  {
    CleanConcat("\"", m);
    CleanConcat("\"" + m, "\"");
  }

  lemma SampleClean()
    ensures Clean(Sample)
  {
    MessageClean();
    CleanQuoted("User not found");
    CleanConcat("User not found", "\"");
    CleanConcat(DoubleQuoted("User not found"), "User not found\"");
  }

  lemma SampleOnceClean()
    ensures Clean(SampleOnce)
  {
    MessageClean();
    TranslatedClean();
    CleanQuoted("Usuário não encontrado");
    CleanConcat("User not found", "\"");
    CleanConcat(DoubleQuoted("Usuário não encontrado"), "User not found\"");
  }

  lemma MessageClean()
    ensures Clean("User not found")
  {
  }

  lemma TranslatedClean()
    ensures Clean("Usuário não encontrado")
  {
  }

  /** Running the dictionary over text without marked characters: the
      entries before and after "User not found" leave it alone. */
  lemma AroundUserNotFound(s: string)
    requires Unmarked(s)
    ensures Translate(s) == Run(Step(s, Translations[UserNotFound]), Translations[UserNotFound + 1..])
    ensures Run(s, Translations[..UserNotFound]) == s
  {
    var before := Translations[..UserNotFound];
    var after := Translations[UserNotFound + 1..];
    assert Translations == before + [Translations[UserNotFound]] + after;
    RunSplit(s, before + [Translations[UserNotFound]], after);
    RunSplit(s, before, [Translations[UserNotFound]]);
    forall k | 0 <= k < |before|
      ensures !IsSubstring(DoubleQuoted(before[k].0), s) && !IsSubstring(SingleQuoted(before[k].0), s)
    {
      OthersAbsent(s, k);
    }
    RunAbsent(s, before);
    assert Run(s, [Translations[UserNotFound]]) == Step(Run(s, []), Translations[UserNotFound]);
  }

  /** The first run rewrites the first quoted message only: the second
      occurrence shares its opening quote with the first one's closing
      quote, and the scan has already passed it. */
  lemma FirstRun()
    ensures Translate(Sample) == SampleOnce
  {
    SampleUnmarked();
    AroundUserNotFound(Sample);
    UserNotFoundEntry();
    StepOnSample();
    AfterUnmarked(SampleOnce);
  }

  lemma UserNotFoundEntry()
    ensures Translations[UserNotFound] == ("User not found", "Usuário não encontrado")
  {
  }

  /** The "User not found" entry rewrites the quoted message at the front
      and nothing behind it. */
  lemma StepOnSample()
    ensures Step(Sample, ("User not found", "Usuário não encontrado")) == SampleOnce
  {
    SampleUnmarked();
    var key := DoubleQuoted("User not found");
    var rep := DoubleQuoted("Usuário não encontrado");
    var rest := "User not found\"";
    ReplaceAtFront(key, rest, rep);
    ShortNoMatch(key, rest);
    ReplaceAbsent(rest, key, rep);
    assert Replace(Sample, key, rep) == SampleOnce;
    assert SingleQuoted("User not found")[0] == '\'';
    MissingCharBlocks(SingleQuoted("User not found"), SampleOnce, '\'');
    ReplaceAbsent(SampleOnce, SingleQuoted("User not found"), SingleQuoted("Usuário não encontrado"));
  }

  /** The entries after "User not found" leave text without marked
      characters alone. */
  lemma AfterUnmarked(s: string)
    requires Unmarked(s)
    ensures Run(s, Translations[UserNotFound + 1..]) == s
  {
    var after := Translations[UserNotFound + 1..];
    forall k | 0 <= k < |after|
      ensures !IsSubstring(DoubleQuoted(after[k].0), s) && !IsSubstring(SingleQuoted(after[k].0), s)
    {
      OthersAbsent(s, UserNotFound + 1 + k);
    }
    RunAbsent(s, after);
  }

  /** On the first run's output, the "User not found" entry finds the
      message the first run skipped, so the text grows. */
  lemma SecondStepGrows()
    ensures |Step(SampleOnce, Translations[UserNotFound])| > |SampleOnce|
  {
    var entry := Translations[UserNotFound];
    assert entry == ("User not found", "Usuário não encontrado");
    SampleOnceEnds();
    SuffixOccurs(DoubleQuoted(entry.0), "\"Usuário não encontrado");
    ReplaceLength(SampleOnce, DoubleQuoted(entry.0), DoubleQuoted(entry.1));
    var once := Replace(SampleOnce, DoubleQuoted(entry.0), DoubleQuoted(entry.1));
    ReplaceLength(once, SingleQuoted(entry.0), SingleQuoted(entry.1));
  }

  /** The entries after "User not found" never shorten a text. */
  lemma LastEntriesGrow(s: string)
    ensures |Run(s, Translations[UserNotFound + 1..])| >= |s|
  {
    var after := Translations[UserNotFound + 1..];
    assert after == [("Invalid model type", "Tipo de modelo inválido"),
                     ("Invalid entity type", "Tipo de entidade inválida")];
    RunLength(s, after);
  }

  /** Translating is not idempotent: on its own output a second run finds
      the message the first run skipped, and grows the text. */
  lemma SecondRunChanges()
    ensures Translate(Translate(Sample)) != Translate(Sample)
  {
    FirstRun();
    SampleUnmarked();
    AroundUserNotFound(SampleOnce);
    SecondStepGrows();
    LastEntriesGrow(Step(SampleOnce, Translations[UserNotFound]));
  }

  /** The loop over the dictionary, reassigning the text at each step. */
  method ApplyAll(original: string, entries: seq<(string, string)>) returns (content: string)
    ensures content == Run(original, entries)
  {
    content := original;
    var i := 0;
    while i < |entries|
      invariant 0 <= i <= |entries|
      invariant content == Run(original, entries[..i])
    {
      var entry := entries[i];
      content := Replace(content, DoubleQuoted(entry.0), DoubleQuoted(entry.1));
      content := Replace(content, SingleQuoted(entry.0), SingleQuoted(entry.1));
      assert entries[..i + 1][..i] == entries[..i];
      i := i + 1;
    }
    assert entries[..i] == entries;
  }

  /** `translate_file`: `file` is what reading gave (None when reading
      raised), `writeFails` whether writing raises. The text is written,
      and true returned, exactly when the translation changed it; any
      failure gives false. `written` is None when nothing new was written;
      a write that raises after `open(path, "w")` has already emptied the
      file is not distinguished from one that never opened it. */
  method TranslateFile(file: Option<string>, writeFails: bool) returns (translated: bool, written: Option<string>)
    ensures file.None? ==> !translated && written.None?
    ensures file.Some? ==> translated == (Translate(file.value) != file.value && !writeFails)
    ensures file.Some? && Translate(file.value) != file.value && !writeFails ==>
      written == Some(Translate(file.value))
    ensures file.Some? && (Translate(file.value) == file.value || writeFails) ==> written.None?
  {
    if file.None? {
      return false, None;
    }
    var original := file.value;
    var content := ApplyAll(original, Translations);
    if content != original {
      if writeFails {
        return false, None;
      }
      return true, Some(content);
    }
    return false, None;
  }
}
