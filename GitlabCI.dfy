/**
 * scripts/generateGitlabCI.js: assembles `.gitlab-ci.yml` from a header, one
 * deploy job per configured staging number and the production job. Each
 * template is modelled as its sequence of lines, every line ended by a line
 * feed.
 */
module GitlabCI {
  import opened Strings

  /** The script's CONFIG object. Staging numbers are the natural numbers the configuration is meant to hold. */
  datatype Config = Config(
    image: string,
    yarnVersion: string,
    firebaseProjectId: string,
    productionBranch: string,
    stagingNumbers: seq<nat>)

  /** The configuration the script ships with: no staging environments. */
  function DefaultConfig(): Config {
    Config(
      "registry.gitlab." + "com/anhnt34/" + "avada-docker-ima" + "ge-cicd:wasm2-no" + "de-20-19-5",
      "4.9.1",
      "thomas-app-base-" + "template",
      "node-22",
      [])
  }

  /** The text of `lines`, each followed by a line feed. */
  function Unlines(lines: seq<string>): string {
    if |lines| == 0 then "" else lines[0] + "\n" + Unlines(lines[1..])
  }

  lemma {:induction false} UnlinesAppend(a: seq<string>, b: seq<string>)
    ensures Unlines(a + b) == Unlines(a) + Unlines(b)
  {
    if |a| == 0 {
      assert a + b == b;
    } else {
      var ab := a + b;
      assert ab[0] == a[0] && ab[1..] == a[1..] + b;
      UnlinesAppend(a[1..], b);
      assert Unlines(ab) == a[0] + "\n" + (Unlines(a[1..]) + Unlines(b));
      assert Unlines(a) == a[0] + "\n" + Unlines(a[1..]);
    }
  }

  lemma {:induction false} UnlinesJoin(lines: seq<string>)
    ensures Unlines(lines) == Join(lines + [""], "\n")
  {
    if |lines| > 0 {
      UnlinesJoin(lines[1..]);
      assert (lines + [""])[1..] == lines[1..] + [""];
    }
  }

  /** Splitting the text of single-line `lines` at line feeds gives the lines back, then the empty piece after the last line feed. */
  lemma TextLines(lines: seq<string>)
    requires forall i :: 0 <= i < |lines| ==> '\n' !in lines[i]
    ensures Strings.Split(Unlines(lines), '\n') == lines + [""]
  {
    UnlinesJoin(lines);
    SplitJoin(lines + [""], '\n');
  }

  // ---------------------------------------------------------------------------
  // templates
  // ---------------------------------------------------------------------------

  // Long fixed lines are written as concatenations of short pieces: one long
  // string literal is far costlier for the verifier than several short ones.

  /** generateHeader(): image, stage list, yarn cache and the corepack set-up. */
  function HeaderLines(c: Config): seq<string> {
    [ "image: " + c.image,
      "",
      "stages: # List " + "of stages for " + "jobs and their " + "order of " + "execution",
      "  - deploy",
      "",
      "# Cache modules " + "in between jobs",
      "cache:",
      "  paths:",
      "    - ." + "yarn-cache/",
      "    - packages/" + "*/.yarn-cache/",
      "",
      "before_script:",
      "  - corepack " + "enable",
      "  - corepack " + "prepare yarn@" + c.yarnVersion + " --activate",
      "  - yarn " + "--version # " + "(optional, for " + "debugging)",
      "" ]
  }

  /** The job key of the staging environment numbered `num` (the number as the template literal renders it). */
  function StagingKey(num: string): string {
    "staging_" + num + ":"
  }

  /** generateStagingJob(n), with `num` the decimal rendering of `n`. */
  function StagingJobLines(num: string): seq<string> {
    var prefix := "$STAGING" + num;
    var projectId := "${STAGING" + num + "_FIREBASE_" + "PROJECT_ID}";
    [ "# Staging " + "environment " + num,
      StagingKey(num),
      "  stage: deploy",
      "",
      "  environment:",
      "    name: " + "staging_" + num,
      "",
      "  only:",
      "    - staging" + num,
      "",
      "  except:",
      "    variables:",
      "      - $CI_" + "COMMIT_TITLE =~ " + "/\\[deploy-only]/",
      "",
      "  script:",
      "    - yarn " + "install",
      "    - echo VITE_" + "APP_DEPLOYED_" + "BRANCH=$CI_" + "COMMIT_REF_NAME " + ">> packages/" + "assets/.env." + "production",
      "    - echo " + "\"VITE_DEPLOY_" + "TIME=$(TZ='Asia/" + "Ho_Chi_Minh' " + "date +'%Y-%m-%d " + "%H:%M:%S')\" >> " + "packages/assets/" + ".env.production",
      "    - echo VITE_" + "DEPLOYED_BY=" + "$GITLAB_USER_" + "NAME >> " + "packages/assets/" + ".env.production",
      "    - echo VITE_" + "SHOPIFY_API_KEY=" + prefix + "_SHOPIFY_API_" + "KEY >> packages/" + "assets/.env." + "production",
      "    - echo VITE_" + "FIREBASE_API_" + "KEY=" + prefix + "_FIREBASE_API_" + "KEY >> packages/" + "assets/.env." + "production",
      "    - echo VITE_" + "FIREBASE_AUTH_" + "DOMAIN=" + projectId + ".firebaseapp." + "com >> packages/" + "assets/.env." + "production",
      "    - echo VITE_" + "FIREBASE_" + "PROJECT_ID=" + prefix + "_FIREBASE_" + "PROJECT_ID >> " + "packages/assets/" + ".env.production",
      "    - echo VITE_" + "FIREBASE_" + "STORAGE_BUCKET=" + projectId + "." + "firebasestorage." + "app >> packages/" + "assets/.env." + "production",
      "    - echo VITE_" + "FIREBASE_APP_ID=" + prefix + "_FIREBASE_APP_" + "ID >> packages/" + "assets/.env." + "production",
      "    - echo VITE_" + "FIREBASE_" + "MEASUREMENT_ID=" + prefix + "_FIREBASE_" + "MEASUREMENT_ID " + ">> packages/" + "assets/.env." + "production",
      "    - yarn " + "predeploy",
      "    - npm " + "install -g " + "firebase-tools@1" + "3.35.1",
      "    - echo " + "$FIREBASE_" + "DEPLOY_KEY",
      "    - echo " + "\"$STAGING_" + num + "_ENV_FILE\" >> " + "packages/" + "functions/.env",
      "    - ./node_" + "modules/.bin/" + "firebase use " + "--token " + "$FIREBASE_" + "DEPLOY_KEY " + "staging" + num,
      "    - ./node_" + "modules/.bin/" + "firebase deploy " + "-m \"Pipeline " + "$CI_PIPELINE_" + "ID, build $CI_" + "BUILD_ID\" " + "--non-interactiv" + "e --token " + "$FIREBASE_" + "DEPLOY_KEY " + "--force",
      "" ]
  }

  /** generateProductionJob(). */
  function ProductionLines(c: Config): seq<string> {
    [ "# Production " + "environment, " + "deploy a new " + "version for " + "application",
      "# Run only when " + "release a new " + "version with a " + "new tag from " + "Gitlab",
      "production:",
      "  stage: deploy",
      "",
      "  environment:",
      "    name: " + "production",
      "",
      "  artifacts:",
      "    paths:",
      "      - 'static/" + "'",
      "",
      "  only:",
      "    - " + c.productionBranch,
      "",
      "  except:",
      "    variables:",
      "      - $CI_" + "COMMIT_TITLE =~ " + "/\\[deploy-only]/",
      "",
      "  script:",
      "    - yarn " + "install",
      "    - echo VITE_" + "APP_DEPLOYED_" + "BRANCH=$CI_" + "COMMIT_REF_NAME " + ">> packages/" + "assets/.env." + "production",
      "    - echo " + "\"VITE_DEPLOY_" + "TIME=$(TZ='Asia/" + "Ho_Chi_Minh' " + "date +'%Y-%m-%d " + "%H:%M:%S')\" >> " + "packages/assets/" + ".env.production",
      "    - echo VITE_" + "DEPLOYED_BY=" + "$GITLAB_USER_" + "NAME >> " + "packages/assets/" + ".env.production",
      "    # Export " + "all variables " + "to /asset/.env." + "production",
      "    - echo VITE_" + "SHOPIFY_API_KEY=" + "$PROD_SHOPIFY_" + "API_KEY >> " + "packages/assets/" + ".env.production",
      "    - echo VITE_" + "FIREBASE_API_" + "KEY=$PROD_" + "FIREBASE_API_" + "KEY >> packages/" + "assets/.env." + "production",
      "    - echo VITE_" + "FIREBASE_AUTH_" + "DOMAIN=$PROD_" + "FIREBASE_AUTH_" + "DOMAIN >> " + "packages/assets/" + ".env.production",
      "    - echo VITE_" + "FIREBASE_" + "PROJECT_ID=" + "$PROD_FIREBASE_" + "PROJECT_ID >> " + "packages/assets/" + ".env.production",
      "    - echo VITE_" + "FIREBASE_" + "STORAGE_BUCKET=" + "$PROD_FIREBASE_" + "STORAGE_BUCKET " + ">> packages/" + "assets/.env." + "production",
      "    - echo VITE_" + "FIREBASE_APP_ID=" + "$PROD_FIREBASE_" + "APP_ID >> " + "packages/assets/" + ".env.production",
      "    - echo VITE_" + "FIREBASE_" + "MEASUREMENT_ID=" + "$PROD_FIREBASE_" + "MEASUREMENT_ID " + ">> packages/" + "assets/.env." + "production",
      "    - yarn " + "predeploy",
      "    - npm " + "install -g " + "firebase-tools@1" + "3.35.1",
      "    - echo " + "$FIREBASE_" + "DEPLOY_KEY",
      "    - echo " + "\"$STAGING_ENV_" + "FILE\" >> " + "packages/" + "functions/.env",
      "    - ./node_" + "modules/.bin/" + "firebase use " + "--token " + "$FIREBASE_" + "DEPLOY_KEY " + c.firebaseProjectId,
      "    - ./node_" + "modules/.bin/" + "firebase deploy " + "-m \"Pipeline " + "$CI_PIPELINE_" + "ID, build $CI_" + "BUILD_ID\" " + "--non-interactiv" + "e --token " + "$FIREBASE_" + "DEPLOY_KEY " + "--force" ]
  }

  /** The text of each template: its lines, each followed by a line feed. */
  function Header(c: Config): string { Unlines(HeaderLines(c)) }
  function StagingJob(n: nat): string { Unlines(StagingJobLines(NatToString(n))) }
  function ProductionJob(c: Config): string { Unlines(ProductionLines(c)) }

  /** `f(n)` for each `n` of `nums`, one after another in list order. */
  function ConcatMap(nums: seq<nat>, f: nat -> string): string {
    if |nums| == 0 then "" else ConcatMap(nums[..|nums| - 1], f) + f(nums[|nums| - 1])
  }

  /** The staging jobs of `nums` in list order. */
  function StagingJobs(nums: seq<nat>): string {
    ConcatMap(nums, StagingJob)
  }

  // ---------------------------------------------------------------------------
  // generation
  // ---------------------------------------------------------------------------

  /** `''` on either side of `s` leaves `s`; stated on its own so the large template texts are not unfolded to see it. */
  lemma AppendEmpty(s: string)
    ensures "" + s == s && s + "" == s
  {
  }

  /** The `for (const num of ...) content += ...` loop: appends `f(num)` for each number in order. */
  method AppendEach(start: string, nums: seq<nat>, f: nat -> string) returns (content: string)
    ensures content == start + ConcatMap(nums, f)
  {
    content := start;
    assert start + "" == start;
    for i := 0 to |nums|
      invariant content == start + ConcatMap(nums[..i], f)
    {
      assert nums[..i + 1][..i] == nums[..i];
      assert start + ConcatMap(nums[..i], f) + f(nums[i]) == start + (ConcatMap(nums[..i], f) + f(nums[i]));
      content := content + f(nums[i]);
    }
    assert nums[..|nums|] == nums;
  }

  /**
   * generateGitlabCI(): start from the empty string, append the header, each
   * staging job in list order, then the production job.
   */
  method GenerateGitlabCI(c: Config) returns (content: string)
    ensures content == Header(c) + StagingJobs(c.stagingNumbers) + ProductionJob(c)
    ensures c.stagingNumbers == [] ==> content == Header(c) + ProductionJob(c)
  {
    var header := Header(c);
    content := "";
    AppendEmpty(header);
    content := content + header;
    content := AppendEach(content, c.stagingNumbers, StagingJob);
    content := content + ProductionJob(c);
  }

  /** The script's own run, `generateGitlabCI()` over the shipped CONFIG: the header, then straight to the production job. */
  method GenerateShipped() returns (content: string)
    ensures content == Header(DefaultConfig()) + ProductionJob(DefaultConfig())
  {
    content := GenerateGitlabCI(DefaultConfig());
  }

  /** Concatenating over a concatenation of lists concatenates the results. */
  lemma {:induction false} ConcatMapAppend(a: seq<nat>, b: seq<nat>, f: nat -> string)
    ensures ConcatMap(a + b, f) == ConcatMap(a, f) + ConcatMap(b, f)
    decreases |b|
  {
    if |b| == 0 {
      assert a + b == a;
      assert ConcatMap(a, f) + "" == ConcatMap(a, f);
    } else {
      var b' := b[..|b| - 1];
      assert (a + b)[..|a + b| - 1] == a + b';
      ConcatMapAppend(a, b', f);
      assert ConcatMap(a, f) + ConcatMap(b', f) + f(b[|b| - 1]) == ConcatMap(a, f) + (ConcatMap(b', f) + f(b[|b| - 1]));
    }
  }

  /** Each configured number's job sits between the jobs of the numbers before it and those after it. */
  lemma StagingJobsAt(nums: seq<nat>, k: nat)
    requires k < |nums|
    ensures StagingJobs(nums) == StagingJobs(nums[..k]) + StagingJob(nums[k]) + StagingJobs(nums[k + 1..])
  {
    assert nums == nums[..k] + [nums[k]] + nums[k + 1..];
    ConcatMapAppend(nums[..k] + [nums[k]], nums[k + 1..], StagingJob);
    ConcatMapAppend(nums[..k], [nums[k]], StagingJob);
    assert [nums[k]][..0] == [];
    assert "" + StagingJob(nums[k]) == StagingJob(nums[k]);
  }

  // ---------------------------------------------------------------------------
  // properties of the templates
  // ---------------------------------------------------------------------------

  /** Distinct staging numbers give distinct job keys, so the generated jobs never clash. */
  lemma StagingKeyInjective(m: nat, n: nat)
    ensures StagingKey(NatToString(m)) == StagingKey(NatToString(n)) <==> m == n
  {
    var a := NatToString(m);
    var b := NatToString(n);
    if StagingKey(a) == StagingKey(b) {
      assert StagingKey(a)[8..|StagingKey(a)| - 1] == a;
      assert StagingKey(b)[8..|StagingKey(b)| - 1] == b;
      NatToStringInjective(m, n);
    }
  }

  /**
   * The staging job for `num` has key `staging_<num>:`, deploys environment
   * `staging_<num>` from branch `staging<num>` to the Firebase project alias
   * `staging<num>`, reads the front-end keys from `$STAGING<num>_` variables
   * and the functions' env file from `STAGING_<num>_ENV_FILE`.
   */
  lemma StagingJobNaming(num: string)
    ensures var job := StagingJobLines(num);
            && job[1] == StagingKey(num)
            && job[5] == "    name: " + "staging_" + num
            && job[8] == "    - staging" + num
            && job[19] == "    - echo VITE_" + "SHOPIFY_API_KEY=" + ("$STAGING" + num) + "_SHOPIFY_API_" + "KEY >> packages/" + "assets/.env." + "production"
            && job[29] == "    - echo " + "\"$STAGING_" + num + "_ENV_FILE\" >> " + "packages/" + "functions/.env"
            && job[30] == "    - ./node_" + "modules/.bin/" + "firebase use " + "--token " + "$FIREBASE_" + "DEPLOY_KEY " + "staging" + num
  {
  }

  /** The header names the configured image and yarn version. */
  lemma HeaderEmbedsConfig(c: Config)
    ensures HeaderLines(c)[0] == "image: " + c.image
    ensures HeaderLines(c)[13] == "  - corepack " + "prepare yarn@" + c.yarnVersion + " --activate"
  {
  }

  /** The production job deploys from the configured branch to the configured Firebase project. */
  lemma ProductionTargets(c: Config)
    ensures ProductionLines(c)[13] == "    - " + c.productionBranch
    ensures ProductionLines(c)[36] == "    - ./node_" + "modules/.bin/" + "firebase use " + "--token " + "$FIREBASE_" + "DEPLOY_KEY " + c.firebaseProjectId
  {
  }
}
