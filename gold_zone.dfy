/** The gold zone (src/02_setup/05_gold_zone.py): flat analytics records for
    the Cloud X system, with age, salary and risk buckets, written as Parquet
    to `gold-zone`. */
module GoldZone {
  import opened Calendar
  import opened Entropy
  import opened Storage

  const Bucket := "gold-zone"
  const KeyPrefix := "analytics/cloud_x/clients_gold_"
  const KeySuffix := ".parquet"
  const MinRecords := 1000
  const MaxRecords := 4000

  const Regions: seq<string> := ["NORTE", "NORDESTE", "CENTRO-OESTE", "SUDESTE", "SUL"]
  const Sectors: seq<string> := ["Tecnologia", "Varejo", "Saúde", "Educação", "Financeiro", "Industrial"]
  const ClientStatuses: seq<string> := ["ATIVO", "INATIVO", "POTENCIAL"]
  const Segments: seq<string> := ["PREMIUM", "STANDARD", "BASIC", "VIP"]
  const Channels: seq<string> := ["DIGITAL", "FISICO", "HIBRIDO"]

  /** The 31 columns, in the order of the dictionary literal: the client
      profile up to `setor`, then credit, purchase behaviour and metadata. */
  const ProfileColumns: seq<string> := [
    "cliente_id", "nome_completo", "email", "telefone", "idade", "faixa_etaria",
    "cidade", "estado", "regiao", "salario_bruto", "faixa_salarial", "empresa",
    "cargo", "setor"]
  const BehaviourColumns: seq<string> := [
    "score_credito", "categoria_risco", "limite_credito",
    "total_compras_ano", "ticket_medio", "frequencia_compras", "ultima_compra",
    "status_cliente", "segmento_cliente", "canal_preferido", "propensao_compra",
    "valor_vida_cliente", "data_cadastro", "dias_desde_cadastro",
    "data_ultima_atualizacao", "origem_dados", "versao_dados"]
  const Columns: seq<string> := ProfileColumns + BehaviourColumns

  /** One gold record. Money is in cents (`round(..., 2)`); the purchase
      propensity is in thousandths (`round(..., 3)`); `ultima_compra` and
      `data_cadastro` stay `date` objects. */
  datatype GoldRecord = GoldRecord(
    cliente_id: string,
    nome_completo: string,
    email: string,
    telefone: string,
    idade: int,
    faixa_etaria: string,
    cidade: string,
    estado: string,
    regiao: string,
    salario_bruto: int,
    faixa_salarial: string,
    empresa: string,
    cargo: string,
    setor: string,
    score_credito: int,
    categoria_risco: string,
    limite_credito: int,
    total_compras_ano: int,
    ticket_medio: int,
    frequencia_compras: int,
    ultima_compra: Date,
    status_cliente: string,
    segmento_cliente: string,
    canal_preferido: string,
    propensao_compra: int,
    valor_vida_cliente: int,
    data_cadastro: Date,
    dias_desde_cadastro: int,
    data_ultima_atualizacao: string,
    origem_dados: string,
    versao_dados: string)

  /** The age bucket of `faixa_etaria`. */
  function AgeBand(idade: int): (band: string)
    ensures band == "JOVEM" <==> idade < 30
    ensures band == "ADULTO" <==> 30 <= idade < 50
    ensures band == "SENIOR" <==> idade >= 50
  {
    if idade < 30 then "JOVEM" else if idade < 50 then "ADULTO" else "SENIOR"
  }

  /** The salary bucket of `faixa_salarial`, for a salary in cents. */
  function SalaryBand(salario: int): (band: string)
    ensures band == "BAIXA" <==> salario < 5000 * 100
    ensures band == "MEDIA" <==> 5000 * 100 <= salario < 10000 * 100
    ensures band == "ALTA" <==> salario >= 10000 * 100
  {
    if salario < 5000 * 100 then "BAIXA" else if salario < 10000 * 100 then "MEDIA" else "ALTA"
  }

  /** The draws the risk expression consumes: the first alone when it is
      above 700, otherwise the first and a second. */
  predicate IsRiskDraws(d: seq<int>)
  {
    (|d| == 1 && d[0] > 700) || (|d| == 2 && d[0] <= 700)
  }

  /** `categoria_risco` from its own fresh draws; `score_credito` plays no part. */
  function RiskCategory(d: seq<int>): (category: string)
    requires IsRiskDraws(d)
    ensures category == "BAIXO" <==> d[0] > 700
    ensures category == "MEDIO" <==> d[0] <= 700 && d[1] > 600
    ensures category == "ALTO" <==> d[0] <= 700 && d[1] <= 600
  {
    if d[0] > 700 then "BAIXO" else if d[1] > 600 then "MEDIO" else "ALTO"
  }

  /** What every generated gold record satisfies. */
  predicate GoldOk(r: GoldRecord)
  {
    25 <= r.idade <= 65 && r.faixa_etaria == AgeBand(r.idade) &&
    r.regiao in Regions &&
    4000 * 100 <= r.salario_bruto <= 25000 * 100 && r.faixa_salarial == SalaryBand(r.salario_bruto) &&
    r.setor in Sectors &&
    400 <= r.score_credito <= 850 &&
    r.categoria_risco in ["BAIXO", "MEDIO", "ALTO"] &&
    2000 * 100 <= r.limite_credito <= 100000 * 100 &&
    0 <= r.total_compras_ano <= 150000 * 100 &&
    50 * 100 <= r.ticket_medio <= 5000 * 100 &&
    1 <= r.frequencia_compras <= 52 &&
    ValidDate(r.ultima_compra) &&
    r.status_cliente in ClientStatuses &&
    r.segmento_cliente in Segments &&
    r.canal_preferido in Channels &&
    0 <= r.propensao_compra <= 1000 &&
    1000 * 100 <= r.valor_vida_cliente <= 500000 * 100 &&
    ValidDate(r.data_cadastro) &&
    1 <= r.dias_desde_cadastro <= 1095 &&
    IsCalendarDateTime(r.data_ultima_atualizacao) &&
    r.origem_dados == "CLOUD_X" && r.versao_dados == "2.0"
  }

  lemma PartsDistinct()
    ensures Distinct(ProfileColumns) && Distinct(BehaviourColumns)
  {
  }

  lemma PartsDisjoint()
    ensures forall k :: k in ProfileColumns ==> k !in BehaviourColumns
  {
  }

  /** No column name is repeated. */
  lemma ColumnsDistinct()
    ensures Distinct(Columns)
  {
    PartsDistinct();
    PartsDisjoint();
    DistinctConcat(ProfileColumns, BehaviourColumns);
  }

  /** The record as the dictionary handed to `pd.DataFrame`. */
  function Row(r: GoldRecord): (row: seq<Field>)
    ensures Keys(row) == Columns && |row| == 31
    ensures row[20].1.Day? && row[26].1.Day? && row[28].1.Text?
  {
    ColumnsDistinct();
    Dict(Columns, [
      Text(r.cliente_id), Text(r.nome_completo), Text(r.email), Text(r.telefone),
      Int(r.idade), Text(r.faixa_etaria), Text(r.cidade), Text(r.estado), Text(r.regiao),
      Fixed(r.salario_bruto, 2), Text(r.faixa_salarial), Text(r.empresa), Text(r.cargo),
      Text(r.setor), Int(r.score_credito), Text(r.categoria_risco),
      Fixed(r.limite_credito, 2), Fixed(r.total_compras_ano, 2), Fixed(r.ticket_medio, 2),
      Int(r.frequencia_compras), Day(r.ultima_compra), Text(r.status_cliente),
      Text(r.segmento_cliente), Text(r.canal_preferido), Fixed(r.propensao_compra, 3),
      Fixed(r.valor_vida_cliente, 2), Day(r.data_cadastro), Int(r.dias_desde_cadastro),
      Text(r.data_ultima_atualizacao), Text(r.origem_dados), Text(r.versao_dados)])
  }

  /** The key `analytics/cloud_x/clients_gold_{timestamp}.parquet`;
      the timestamp reads back out of it. */
  function Key(timestamp: int): (key: string)
    ensures IsKey(key, KeyPrefix, KeySuffix)
    ensures TimestampOf(key, KeyPrefix, KeySuffix) == timestamp
  {
    ObjectKeyRoundTrip(KeyPrefix, timestamp, KeySuffix);
    ObjectKey(KeyPrefix, timestamp, KeySuffix)
  }

  /** Any score can sit beside any risk category: the category is not
      derived from the stored score. */
  lemma RiskIgnoresScore(r: GoldRecord, score: int, category: string)
    requires GoldOk(r)
    requires 400 <= score <= 850 && category in ["BAIXO", "MEDIO", "ALTO"]
    ensures GoldOk(r.(score_credito := score, categoria_risco := category))
  {
  }

  /** The risk expression: one draw in [400, 850], and a second only when
      the first is at most 700. */
  method DrawRiskCategory(rng: Random) returns (category: string, ghost draws: seq<int>)
    modifies rng
    ensures rng.drawn == old(rng.drawn) + draws
    ensures IsRiskDraws(draws) && (forall k :: 0 <= k < |draws| ==> 400 <= draws[k] <= 850)
    ensures category == RiskCategory(draws)
  {
    var first := rng.RandInt(400, 850);
    if first > 700 {
      category, draws := "BAIXO", [first];
    } else {
      var second := rng.RandInt(400, 850);
      category := if second > 600 then "MEDIO" else "ALTO";
      draws := [first, second];
    }
  }

  /** The `random` draws of the record that come before the risk
      expression: salary, age, region, sector and the stored score. */
  method DrawProfile(rng: Random)
    returns (salario: int, idade: int, regiao: string, setor: string, score: int, ghost draws: seq<int>)
    modifies rng
    ensures rng.drawn == old(rng.drawn) + draws && |draws| == 5
    ensures 4000 * 100 <= salario <= 25000 * 100 && salario == draws[0]
    ensures 25 <= idade <= 65 && idade == draws[1]
    ensures 0 <= draws[2] < |Regions| && regiao == Regions[draws[2]]
    ensures 0 <= draws[3] < |Sectors| && setor == Sectors[draws[3]]
    ensures 400 <= score <= 850 && score == draws[4]
  {
    salario := rng.Uniform(4000, 25000, 2);
    idade := rng.RandInt(25, 65);
    ghost var iRegiao, iSetor;
    regiao, iRegiao := rng.Choice(Regions);
    setor, iSetor := rng.Choice(Sectors);
    score := rng.RandInt(400, 850);
    draws := [salario, idade, iRegiao, iSetor, score];
  }

  /** The `random` draws of the record that come after the risk expression. */
  method DrawHabits(rng: Random)
    returns (limite: int, total: int, ticket: int, frequencia: int, status: string,
             segmento: string, canal: string, propensao: int, valorVida: int, dias: int,
             ghost draws: seq<int>)
    modifies rng
    ensures rng.drawn == old(rng.drawn) + draws && |draws| == 10
    ensures 2000 * 100 <= limite <= 100000 * 100 && limite == draws[0]
    ensures 0 <= total <= 150000 * 100 && total == draws[1]
    ensures 50 * 100 <= ticket <= 5000 * 100 && ticket == draws[2]
    ensures 1 <= frequencia <= 52 && frequencia == draws[3]
    ensures 0 <= draws[4] < |ClientStatuses| && status == ClientStatuses[draws[4]]
    ensures 0 <= draws[5] < |Segments| && segmento == Segments[draws[5]]
    ensures 0 <= draws[6] < |Channels| && canal == Channels[draws[6]]
    ensures 0 <= propensao <= 1000 && propensao == draws[7]
    ensures 1000 * 100 <= valorVida <= 500000 * 100 && valorVida == draws[8]
    ensures 1 <= dias <= 1095 && dias == draws[9]
  {
    limite := rng.Uniform(2000, 100000, 2);
    total := rng.Uniform(0, 150000, 2);
    ticket := rng.Uniform(50, 5000, 2);
    frequencia := rng.RandInt(1, 52);
    ghost var iStatus, iSegmento, iCanal;
    status, iStatus := rng.Choice(ClientStatuses);
    segmento, iSegmento := rng.Choice(Segments);
    canal, iCanal := rng.Choice(Channels);
    propensao := rng.Uniform(0, 1, 3);
    valorVida := rng.Uniform(1000, 500000, 2);
    dias := rng.RandInt(1, 1095);
    draws := [limite, total, ticket, frequencia, iStatus, iSegmento, iCanal, propensao, valorVida, dias];
  }

  /** One iteration of the loop in `generate_gold_data`. Its eight Faker
      `texts` are stored unchanged, in the literal's order. The record takes
      from `random`, in the order of the dictionary literal, the five
      `profile` draws (salary, age, region, sector, score), then the one or
      two `risk` draws, then the ten `habits` draws (credit limit, purchases,
      ticket, frequency, status, segment, channel, propensity, lifetime value,
      days since sign-up). The stored score is the last profile draw; the
      risk category reads only its own draws. */
  method DrawGoldRecord(rng: Random, faker: Faker)
    returns (r: GoldRecord, ghost texts: seq<(Attribute, string)>,
             ghost profile: seq<int>, ghost risk: seq<int>, ghost habits: seq<int>)
    modifies rng, faker
    ensures GoldOk(r)
    ensures faker.made == old(faker.made) + texts && |texts| == 8
    ensures texts[0] == (Uuid4, r.cliente_id)
    ensures texts[1] == (Name, r.nome_completo)
    ensures texts[2] == (Email, r.email)
    ensures texts[3] == (PhoneNumber, r.telefone)
    ensures texts[4] == (City, r.cidade)
    ensures texts[5] == (State, r.estado)
    ensures texts[6] == (Company, r.empresa) && texts[7] == (Job, r.cargo)
    ensures rng.drawn == old(rng.drawn) + profile + risk + habits
    ensures |profile| == 5 && |habits| == 10
    ensures r.salario_bruto == profile[0] && r.idade == profile[1]
    ensures 0 <= profile[2] < |Regions| && r.regiao == Regions[profile[2]]
    ensures 0 <= profile[3] < |Sectors| && r.setor == Sectors[profile[3]]
    ensures r.score_credito == profile[4]
    ensures IsRiskDraws(risk) && r.categoria_risco == RiskCategory(risk)
    ensures r.limite_credito == habits[0] && r.total_compras_ano == habits[1]
    ensures r.ticket_medio == habits[2] && r.frequencia_compras == habits[3]
    ensures 0 <= habits[4] < |ClientStatuses| && r.status_cliente == ClientStatuses[habits[4]]
    ensures 0 <= habits[5] < |Segments| && r.segmento_cliente == Segments[habits[5]]
    ensures 0 <= habits[6] < |Channels| && r.canal_preferido == Channels[habits[6]]
    ensures r.propensao_compra == habits[7] && r.valor_vida_cliente == habits[8]
    ensures r.dias_desde_cadastro == habits[9]
  {
    var attributes := [Uuid4, Name, Email, PhoneNumber, City, State, Company, Job];
    var t := faker.FakeEach(attributes);
    var clienteId, nome, email, telefone, cidade, estado, empresa, cargo :=
      t[0].1, t[1].1, t[2].1, t[3].1, t[4].1, t[5].1, t[6].1, t[7].1;
    texts := t;
    var salario, idade, regiao, setor, score;
    salario, idade, regiao, setor, score, profile := DrawProfile(rng);
    var risco;
    risco, risk := DrawRiskCategory(rng);
    var limite, total, ticket, frequencia, status, segmento, canal, propensao, valorVida, dias;
    limite, total, ticket, frequencia, status, segmento, canal, propensao, valorVida, dias, habits := DrawHabits(rng);
    var ultimaCompra := DateBetween(1);
    var cadastro := DateBetween(3);
    var agora := LocalTime();
    FormatIsCalendarDateTime(agora);
    r := GoldRecord(
      clienteId, nome, email, telefone, idade, AgeBand(idade), cidade, estado, regiao,
      salario, SalaryBand(salario), empresa, cargo, setor, score, risco,
      limite, total, ticket, frequencia, ultimaCompra, status, segmento, canal,
      propensao, valorVida, cadastro, dias, FormatDateTime(agora), "CLOUD_X", "2.0");
  }

  /** `generate_gold_data(num_records)`: `num_records` records in the order
      drawn (none when the count is not positive). */
  method GenerateGoldData(rng: Random, faker: Faker, numRecords: int) returns (records: seq<GoldRecord>)
    modifies rng, faker
    ensures |records| == if numRecords < 0 then 0 else numRecords
    ensures forall i :: 0 <= i < |records| ==> GoldOk(records[i])
  {
    records := [];
    var n := if numRecords < 0 then 0 else numRecords;
    for i := 0 to n
      invariant |records| == i
      invariant forall j :: 0 <= j < i ==> GoldOk(records[j])
    {
      var r, _, _, _, _ := DrawGoldRecord(rng, faker);
      records := records + [r];
    }
  }

  /** `main`: draw the count, generate, and save as Parquet under the key of
      the clock reading `now` (`int(time.time())`). On success the store
      puts the object at that key, adding it or replacing what was there, and
      nothing else changes; on failure the store is unchanged. */
  method RunGoldZone(rng: Random, faker: Faker, store: ObjectStore, now: int)
    returns (ok: bool, ghost records: seq<GoldRecord>)
    modifies rng, faker, store
    ensures MinRecords <= |records| <= MaxRecords
    ensures forall i :: 0 <= i < |records| ==> GoldOk(records[i])
    ensures ok ==> store.objects == old(store.objects)[(Bucket, Key(now)) :=
      Object(Payload(Parquet, Table(records, Row)), "application/octet-stream")]
    ensures !ok ==> store.objects == old(store.objects)
  {
    var numRecords := rng.RandInt(MinRecords, MaxRecords);
    var data := GenerateGoldData(rng, faker, numRecords);
    records := data;
    ok := Save(store, Table(data, Row), Bucket, Key(now), Parquet);
  }
}
