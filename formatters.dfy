/** The display formatters of the settings screen
    (src/pages/Configuracoes/index.js) and the two string steps of its
    address lookup. */
module Formatters {
  import opened Values
  import opened Text

  // ---------------------------------------------------------------------
  // formatarTelefone
  // ---------------------------------------------------------------------

  /** `String(numero ?? '').replace(/\D/g, '')`: the digits of the value, or
      nothing when the value is null or undefined. */
  function PhoneDigits(numero: Field): (d: string)
    ensures AllDigits(d)
    ensures numero.None? ==> d == ""
    ensures numero.Some? && AllDigits(numero.value) ==> d == numero.value
  {
    var s := if numero.Some? then numero.value else "";
    DigitsFixpoint(s);
    Digits(s)
  }

  /** Masks a phone number as `(XX) XXXXX-XXXX` when exactly eleven digits
      remain after stripping; any other digit count is shown as bare digits. */
  function FormatPhone(numero: Field): (r: string)
    ensures numero.None? ==> r == ""
    ensures var d := PhoneDigits(numero);
            |d| == 11 ==>
              |r| == 15 && r[0] == '(' && r[1..3] == d[..2] && r[3..5] == ") "
              && r[5..10] == d[2..7] && r[10] == '-' && r[11..] == d[7..]
    ensures var d := PhoneDigits(numero);
            |d| != 11 ==> r == d && AllDigits(r)
  {
    var d := PhoneDigits(numero);
    if |d| == 11 then "(" + d[..2] + ") " + d[2..7] + "-" + d[7..] else d
  }

  /** The mask adds punctuation only: stripping the output gives back the
      digits of the input. */
  lemma {:induction false} PhoneKeepsDigits(numero: Field)
    ensures Digits(FormatPhone(numero)) == PhoneDigits(numero)
  {
    var d := PhoneDigits(numero);
    if |d| == 11 {
      var a, b, c := d[..2], d[2..7], d[7..];
      assert AllDigits(a) && AllDigits(b) && AllDigits(c) by {
        assert forall i :: 0 <= i < 2 ==> a[i] == d[i];
        assert forall i :: 0 <= i < 5 ==> b[i] == d[i + 2];
        assert forall i :: 0 <= i < 4 ==> c[i] == d[i + 7];
      }
      MaskDigits(a, b, c);
      assert a + b + c == d;
    } else {
      DigitsFixpoint(d);
    }
  }

  /** Stripping `(a) b-c` leaves `a + b + c` when the three parts are digits. */
  lemma {:induction false} MaskDigits(a: string, b: string, c: string)
    requires AllDigits(a) && AllDigits(b) && AllDigits(c)
    ensures Digits("(" + a + ") " + b + "-" + c) == a + b + c
  {
    DigitsFixpoint(a);
    DigitsFixpoint(b);
    DigitsFixpoint(c);
    var open := "(" + a;
    var closed := open + ") ";
    var middle := closed + b;
    var dashed := middle + "-";
    DigitsConcat("(", a);
    assert Digits(open) == a;
    DigitsConcat(open, ") ");
    assert Digits(closed) == a;
    DigitsConcat(closed, b);
    assert Digits(middle) == a + b;
    DigitsConcat(middle, "-");
    assert Digits(dashed) == a + b;
    DigitsConcat(dashed, c);
  }

  /** Formatting an already formatted number changes nothing. */
  lemma PhoneIdempotent(numero: Field)
    ensures FormatPhone(Some(FormatPhone(numero))) == FormatPhone(numero)
  {
    PhoneKeepsDigits(numero);
  }

  // ---------------------------------------------------------------------
  // formatarDataNascimento
  // ---------------------------------------------------------------------

  /** Turns `YYYY-MM-DDT...` into `DD/MM/YYYY`: the text before the first `T`
      is reordered by ReorderDate. Falsy values give the empty string and
      values without `T` are shown as they are. */
  function FormatBirthDate(data: Field): (r: Completion<string>)
    ensures !Truthy(data) ==> r == Normal("")
    ensures Truthy(data) && 'T' !in data.value ==> r == Normal(data.value)
  {
    if !Truthy(data) then Normal("")
    else if 'T' !in data.value then Normal(data.value)
    else ReorderDate(Split(data.value, 'T')[0])
  }

  /** `const [ano, mes, dia] = date.split('-')` followed by
      `${dia.padStart(2, '0')}/${mes.padStart(2, '0')}/${ano}`; with fewer
      than three pieces `dia` is undefined and calling `padStart` on it throws. */
  function ReorderDate(date: string): (r: Completion<string>)
    ensures r.Throw? <==> Count(date, '-') < 2
  {
    SplitLength(date, '-');
    var parts := Split(date, '-');
    if |parts| < 3 then Throw
    else Normal(PadStart(parts[2], 2, '0') + "/" + PadStart(parts[1], 2, '0') + "/" + parts[0])
  }

  /** Only the text before the first `T` is used. */
  lemma BirthDateBeforeT(date: string, time: string)
    requires 'T' !in date
    ensures FormatBirthDate(Some(date + "T" + time)) == ReorderDate(date)
  {
    assert date + "T" + time == date + ['T'] + time;
    SplitAtFirst(date, 'T', time);
  }

  /** Year and month without hyphens split off as the first two pieces; the
      rest are the pieces of whatever follows the second hyphen. */
  lemma SplitIsoDate(year: string, month: string, day: string)
    requires '-' !in year && '-' !in month
    ensures Split(year + "-" + month + "-" + day, '-') == [year, month] + Split(day, '-')
  {
    assert year + "-" + month + "-" + day == year + ['-'] + (month + ['-'] + day);
    SplitAtFirst(year, '-', month + ['-'] + day);
    SplitAtFirst(month, '-', day);
  }

  /** An ISO date-time is reordered to day/month/year with day and month
      padded to two characters. Destructuring takes the first three pieces,
      so anything after a third hyphen is dropped. */
  lemma BirthDateIso(year: string, month: string, day: string, time: string)
    requires '-' !in year && '-' !in month
    requires 'T' !in year && 'T' !in month && 'T' !in day
    ensures FormatBirthDate(Some(year + "-" + month + "-" + day + "T" + time))
         == Normal(PadStart(Split(day, '-')[0], 2, '0') + "/" + PadStart(month, 2, '0') + "/" + year)
    ensures '-' !in day ==>
              (FormatBirthDate(Some(year + "-" + month + "-" + day + "T" + time))
               == Normal(PadStart(day, 2, '0') + "/" + PadStart(month, 2, '0') + "/" + year))
  {
    var date := year + "-" + month + "-" + day;
    assert 'T' !in date;
    BirthDateBeforeT(date, time);
    SplitIsoDate(year, month, day);
    if '-' !in day {
      SplitNoSep(day, '-');
    }
  }

  /** Evaluation throws exactly when the date part has fewer than two `-`. */
  lemma BirthDateThrows(date: string, time: string)
    requires 'T' !in date
    ensures FormatBirthDate(Some(date + "T" + time)).Throw? <==> Count(date, '-') < 2
  {
    BirthDateBeforeT(date, time);
  }

  // ---------------------------------------------------------------------
  // getAdressFromApi: postal code and response checks
  // ---------------------------------------------------------------------

  /** `cep.replace('-', '')`: a string pattern, so only the first hyphen goes. */
  function SanitizeCep(cep: string): (r: string)
    ensures '-' !in cep ==> r == cep
    ensures '-' in cep ==> |r| == |cep| - 1 && Count(r, '-') == Count(cep, '-') - 1
  {
    RemoveFirst(cep, '-')
  }

  /** The first hyphen is removed and any later one is kept. */
  lemma SanitizeCepFirstHyphen(before: string, after: string)
    requires '-' !in before
    ensures SanitizeCep(before + "-" + after) == before + after
  {
    assert before + "-" + after == before + ['-'] + after;
    RemoveFirstAt(before, '-', after);
  }

  /** `data.startsWith('<')`: the lookup rejects a body that is markup. */
  predicate IsMarkup(body: string)
    ensures IsMarkup(body) <==> body != [] && body[0] == '<'
  {
    StartsWith(body, "<")
  }
}
